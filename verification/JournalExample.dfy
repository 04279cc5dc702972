/** A run of the journal in which a state is replaced by a delta: what the theorems about
    runs assume does happen. */
module JournalExample {
  import opened Results
  import opened Json
  import opened RunStateDelta
  import opened RunStateDiff
  import opened DiffEffort
  import opened DemoRunForm
  import opened DemoRunNormalForm
  import opened RunJournal
  import opened JournalRuns
  import opened JournalLimits

  function Plain(text: string): map<string, Json> {
    map["runId" := Str("r"), "threadId" := Str("t"), "userText" := Str(""), "modelId" := Str("m"),
        "assistantText" := Str(text), "nextAdapterEventIndex" := Num(0.0)]
  }

  /** A field that needs no nesting to speak of. */
  predicate Shallow(v: Json) {
    v.Primitive?() || (v.Arr? && forall i :: 0 <= i < |v.items| ==> v.items[i].Str?)
  }

  lemma PlainMissing(kind: Kind)
    requires !kind.RequiredString? && !kind.RequiredNumber?
    ensures match ParseOwn(kind, None)
            case Present(x) => Shallow(x) && SerializeField(kind, x) == x
            case Absent => true
            case Rejected => false
  {
  }

  lemma PlainAttempts(text: string)
    ensures HasRequired(Plain(text)) && Attempts(Plain(text)) == Some(["m"])
  {
  }

  lemma PlainField(text: string, name: string)
    ensures HasRequired(Plain(text))
    ensures match ParseField(name, Plain(text))
            case Present(x) => Shallow(x) && SerializeField(KindOf(name), x) == x
            case Absent => true
            case Rejected => false
  {
    PlainAttempts(text);
    KindOnly(name);
    hide KindOf, Attempts;
    if name !in Plain(text) && !KindOf(name).AttemptedModels? {
      PlainMissing(KindOf(name));
      hide ParseOwn, HasRequired;
    }
  }

  lemma PlainRun(text: string)
    ensures ParseDemoRun(Obj(Plain(text))).Ok? && AttemptsFit(Obj(Plain(text)))
    ensures DepthAtMost(NormalForm(Obj(Plain(text))), MAX_PATH)
  {
    PlainAttempts(text);
    forall name ensures !ParseField(name, Plain(text)).Rejected? {
      PlainField(text, name);
    }
    hide ParseField, KindOf, FieldNames, Attempts, Durable;
    assert ParseDemoRun(Obj(Plain(text))).Ok?;
    NormalFormFields(Obj(Plain(text)));
    var fields := NormalForm(Obj(Plain(text))).fields;
    forall name | name in fields ensures Shallow(fields[name]) {
      PlainField(text, name);
      assert StoredAs(name, Plain(text), fields);
    }
    hide NormalForm, ParseDemoRun;
    ShallowRecord(fields);
  }

  lemma ShallowRecord(fields: map<string, Json>)
    requires forall name :: name in fields ==> Shallow(fields[name])
    ensures DepthAtMost(Obj(fields), MAX_PATH)
  {
    forall name | name in fields ensures DepthAtMost(fields[name], MAX_PATH - 1) {
      assert Shallow(fields[name]);
    }
  }

  // ------------------------------------------------------------- the example run

  function Draft(): EventDraft {
    EventDraft("e", "run.started", Some("r"), Some(Obj(Plain(""))), None, map[])
  }

  /** Sizes under which the second draft is worth a delta. */
  function Sizes(p: Payload): nat {
    if p.Full? then COMPACT_FROM else 0
  }

  ghost function Taken(text: string): RunStateSnapshot
    requires ParseDemoRun(Obj(Plain(text))).Ok?
  {
    RunStateSnapshot(NormalForm(Obj(Plain(text))), StateHash(NormalForm(Obj(Plain(text)))))
  }

  ghost function Written(): EventDraft
    requires ParseDemoRun(Obj(Plain(""))).Ok?
  {
    var s := Taken("");
    Draft().(run := Some(Projection(s.value)), delta := Some(RunStateDelta(1, s.hash, s.hash, [])))
  }

  lemma PlainIdentity(text: string)
    ensures ParseDemoRun(Obj(Plain(text))).Ok?
    ensures StringAt(NormalForm(Obj(Plain(text))), "runId") == Some("r")
    ensures StringAt(NormalForm(Obj(Plain(text))), "threadId") == Some("t")
  {
    hide ParseDemoRun, NormalForm, DepthAtMost, AttemptsFit, HasRequired;
    PlainRun(text);
    IdentityKept(Obj(Plain(text)));
  }

  lemma PlainSnapshot(text: string)
    ensures ParseDemoRun(Obj(Plain(text))).Ok? && NormalForm(Obj(Plain(text))).Obj?
    ensures Snapshot(Some(Obj(Plain(text)))) == Ok(Some(Taken(text)))
  {
    hide ParseDemoRun, NormalForm, DepthAtMost, AttemptsFit, HasRequired, Plain, Attempts, StoredAs, Durable;
    PlainRun(text);
    PlainAttempts(text);
    NormalFormFields(Obj(Plain(text)));
  }

  lemma PlainAdmissible()
    ensures Admissible(Draft())
  {
    hide ParseDemoRun, NormalForm, DepthAtMost, AttemptsFit, HasRequired, Plain;
    PlainRun("");
  }

  lemma DraftFacts()
    ensures ParseDemoRun(Obj(Plain(""))).Ok? && Admissible(Draft())
    ensures Snapshot(Draft().run) == Ok(Some(Taken("")))
    ensures StringAt(Taken("").value, "runId") == Some("r") && Taken("").value.Obj?
  {
    hide ParseDemoRun, NormalForm, Admissible, Plain, Snapshot, StringAt;
    PlainIdentity("");
    PlainSnapshot("");
    PlainAdmissible();
  }

  /** The first draft is written in full, the same state again as an empty delta. */
  lemma DraftPrepared()
    ensures ParseDemoRun(Obj(Plain(""))).Ok?
    ensures var base := map["r" := Taken("")];
            && PreparedOne(Sizes, map[], Draft(), Draft()) && BaseAfter(map[], Draft()) == base
            && PreparedOne(Sizes, base, Draft(), Written()) && BaseAfter(base, Draft()) == base
  {
    DraftFacts();
    hide ParseDemoRun, NormalForm, DepthAtMost, Snapshot, Projection, Plain, Admissible, EffortOf;
    var s := Taken("");
    EqualTakesNothing(s.value);
    assert map["r" := s]["r" := s] == map["r" := s];
    assert LeadsFromTo(RunStateDelta(1, s.hash, s.hash, []), s.value, s.value);
  }

  ghost predicate Compacted(d: Ledger) {
    |d.original| == |d.compacted| == 2 && d.compacted[1].delta.Some? && d.compacted[1] != d.original[1]
  }

  /** Two batches are staged and committed; the second enters the log as a delta. So the
      hypotheses of the theorems about runs can be met together with a compaction. */
  lemma CompactingRun() returns (worlds: seq<World>, actions: seq<Action>)
    ensures IsRun(Sizes, worlds, actions) && Compacted(worlds[|actions|].durable)
  {
    hide *;
    DraftFacts();
    var base := map["r" := Taken("")];
    var w0 := World(Ledger(map[], [], [], map[]), 0, [], []);
    PlainReady(w0);
    var a1, w1 := StageOne(w0, Draft(), base);
    var a2, w2 := CommitOne(w1, Draft(), base);
    AgainReady(w2);
    var a3, w3 := StageOne(w2, Written(), base);
    var a4, w4 := CommitOne(w3, Written(), base);
    worlds, actions := [w0, w1, w2, w3, w4], [a1, a2, a3, a4];
    FourSteps(worlds, actions);
    assert w4.durable.original == [] + [Draft()] + [Draft()] && w4.durable.compacted == [] + [Draft()] + [Written()];
    BothWritten(w4.durable);
  }

  lemma FourSteps(worlds: seq<World>, actions: seq<Action>)
    requires |worlds| == 5 && |actions| == 4
    requires worlds[0] == World(Ledger(map[], [], [], map[]), 0, [], [])
    requires Next(Sizes, worlds[0], actions[0], worlds[1]) && Next(Sizes, worlds[1], actions[1], worlds[2])
    requires Next(Sizes, worlds[2], actions[2], worlds[3]) && Next(Sizes, worlds[3], actions[3], worlds[4])
    ensures IsRun(Sizes, worlds, actions)
  {
    hide Next;
  }

  lemma BothWritten(d: Ledger)
    requires ParseDemoRun(Obj(Plain(""))).Ok?
    requires d.original == [Draft(), Draft()] && d.compacted == [Draft(), Written()]
    ensures Compacted(d)
  {
    hide ParseDemoRun, NormalForm, Projection, Plain;
  }

  lemma PlainReady(w: World)
    requires w.durable.baselines == map[]
    ensures ParseDemoRun(Obj(Plain(""))).Ok? && Ready(w, Draft(), map["r" := Taken("")])
  {
    DraftFacts();
    DraftPrepared();
    assert FewOperations(Draft());
    OneDraft(map[], Draft(), map["r" := Taken("")]);
    hide ParseDemoRun, Draft, Taken, Prepared, BaseAfterAll, AllAdmissible, AllFewOperations;
  }

  lemma AgainReady(w: World)
    requires ParseDemoRun(Obj(Plain(""))).Ok? && w.durable.baselines == map["r" := Taken("")]
    ensures Ready(w, Written(), map["r" := Taken("")])
  {
    DraftFacts();
    DraftPrepared();
    WrittenIsShort();
    OneDraft(map["r" := Taken("")], Written(), map["r" := Taken("")]);
    hide ParseDemoRun, Draft, Written, Taken, Prepared, BaseAfterAll, AllAdmissible, AllFewOperations;
  }

  lemma WrittenIsShort()
    requires ParseDemoRun(Obj(Plain(""))).Ok?
    ensures FewOperations(Written())
  {
    hide ParseDemoRun, NormalForm, Projection, Plain;
  }

  ghost predicate Ready(w: World, out: EventDraft, after: Baselines) {
    && AllAdmissible([Draft()]) && AllFewOperations([out])
    && Prepared(Sizes, w.durable.baselines, [Draft()], [out]) && BaseAfterAll(w.durable.baselines, [Draft()]) == after
  }

  lemma StageOne(w: World, out: EventDraft, after: Baselines) returns (action: Action, w': World)
    requires Ready(w, out, after)
    ensures Next(Sizes, w, action, w') && w'.durable == w.durable && w'.revision == w.revision
    ensures w'.stages != [] && w'.stages[|w'.stages| - 1] ==
              JournalRuns.Stage(w.durable.baselines, [Draft()], StagedBatch([out], after, w.revision))
  {
    hide Draft, Prepared, BaseAfterAll, AllAdmissible, AllFewOperations;
    var batch := StagedBatch([out], after, w.revision);
    action := StageBatch([Draft()], batch);
    w' := w.(stages := w.stages + [JournalRuns.Stage(w.durable.baselines, [Draft()], batch)]);
  }

  lemma CommitOne(w: World, out: EventDraft, after: Baselines) returns (action: Action, w': World)
    requires w.stages != []
    requires w.stages[|w.stages| - 1] ==
               JournalRuns.Stage(w.durable.baselines, [Draft()], StagedBatch([out], after, w.revision))
    ensures Next(Sizes, w, action, w') && w'.revision == w.revision + 1
    ensures w'.durable == Ledger(w.durable.start, w.durable.original + [Draft()], w.durable.compacted + [out], after)
  {
    hide Draft, Prepared, BaseAfterAll, AllAdmissible, AllFewOperations, ForgetEnded, Stateless;
    action := CommitStage(|w.stages| - 1);
    w' := w.(revision := w.revision + 1,
             durable := Ledger(w.durable.start, w.durable.original + [Draft()], w.durable.compacted + [out], after));
  }

  lemma OneDraft(base: Baselines, out: EventDraft, after: Baselines)
    requires Admissible(Draft()) && FewOperations(out)
    requires PreparedOne(Sizes, base, Draft(), out) && BaseAfter(base, Draft()) == after
    ensures AllAdmissible([Draft()]) && AllFewOperations([out]) && Prepared(Sizes, base, [Draft()], [out])
    ensures BaseAfterAll(base, [Draft()]) == after
  {
    hide PreparedOne, BaseAfter, Admissible, Draft;
    assert [Draft()][1..] == [] && [out][1..] == [];
    assert Prepared(Sizes, after, [], []);
    assert BaseAfterAll(after, []) == after;
  }

  // ------------------------------------------------ too many attempted models at work

  function CrowdedDraft(): EventDraft {
    EventDraft("e", "run.started", Some("r"), Some(Obj(Crowded())), None, map[])
  }

  ghost function CrowdedTaken(): RunStateSnapshot
    requires ParseDemoRun(Obj(Crowded())).Ok?
  {
    RunStateSnapshot(NormalForm(Obj(Crowded())), StateHash(NormalForm(Obj(Crowded()))))
  }

  ghost function CrowdedWritten(): EventDraft
    requires ParseDemoRun(Obj(Crowded())).Ok?
  {
    var s := CrowdedTaken();
    CrowdedDraft().(run := Some(Projection(s.value)), delta := Some(RunStateDelta(1, s.hash, s.hash, [])))
  }

  lemma CrowdedFacts()
    ensures ParseDemoRun(Obj(Crowded())).Ok? && !AttemptsFit(Obj(Crowded()))
    ensures Snapshot(Some(Obj(Crowded()))) == Ok(Some(CrowdedTaken())) && CrowdedTaken().value.Obj?
    ensures StringAt(Obj(Crowded()), "runId") == Some("r") == StringAt(CrowdedTaken().value, "runId")
  {
    CrowdedRun();
    CrowdedRequired();
    CrowdedName();
    hide ParseDemoRun, NormalForm, Crowded, AttemptsFit, HasRequired, StringAt, Durable, StoredAs;
    IdentityKept(Obj(Crowded()));
    NormalFormFields(Obj(Crowded()));
  }

  lemma CrowdedName()
    ensures StringAt(Obj(Crowded()), "runId") == Some("r")
  {
    hide StrList, Names;
  }

  /** The first draft is written in full, the same state again as an empty delta. */
  lemma CrowdedPrepared()
    ensures ParseDemoRun(Obj(Crowded())).Ok?
    ensures var base := map["r" := CrowdedTaken()];
            && PreparedOne(Sizes, map[], CrowdedDraft(), CrowdedDraft()) && BaseAfter(map[], CrowdedDraft()) == base
            && CompactedTo(Sizes, base, CrowdedDraft(), CrowdedTaken(), CrowdedWritten())
            && PreparedOne(Sizes, base, CrowdedDraft(), CrowdedWritten())
  {
    CrowdedFacts();
    hide ParseDemoRun, NormalForm, DepthAtMost, Snapshot, Projection, Crowded, EffortOf, StringAt, AttemptsFit;
    var s := CrowdedTaken();
    EmptyIsDiff(s);
  }

  lemma EmptyIsDiff(s: RunStateSnapshot)
    requires s.hash == StateHash(s.value)
    ensures IsDiff(RunStateDelta(1, s.hash, s.hash, []), s.value, s.value)
  {
    EqualTakesNothing(s.value);
    hide EffortOf;
  }

  /** The same state with 256 attempted models twice: in full the log replays, as staged it
      does not. */
  lemma CrowdedPair()
    ensures ParseDemoRun(Obj(Crowded())).Ok?
    ensures var drafts, outs := [CrowdedDraft(), CrowdedDraft()], [CrowdedDraft(), CrowdedWritten()];
            Prepared(Sizes, map[], drafts, outs) && Replay(map[], drafts).Ok? && Replay(map[], outs).Err?
  {
    hide *;
    CrowdedFacts();
    CrowdedPrepared();
    CrowdedReplays();
    var base := map["r" := CrowdedTaken()];
    TwoPrepared(map[], base, CrowdedDraft(), CrowdedDraft(), CrowdedDraft(), CrowdedWritten());
    TwoReplayed(map[], CrowdedDraft(), CrowdedDraft());
    TwoReplayed(map[], CrowdedDraft(), CrowdedWritten());
  }

  lemma CrowdedReplays()
    requires ParseDemoRun(Obj(Crowded())).Ok?
    ensures var runs := map["r" := ParseDemoRun(Obj(Crowded())).value];
            && ApplyEvent(map[], CrowdedDraft()) == Ok(runs) && ApplyEvent(runs, CrowdedDraft()).Ok?
            && ApplyEvent(runs, CrowdedWritten()).Err?
  {
    hide ParseDemoRun, NormalForm, Snapshot, Crowded, StringAt, AttemptsFit, CompactedTo, Deliverable, ApplyEvent;
    hide PreparedOne, CrowdedWritten, CrowdedTaken;
    CrowdedFacts();
    CrowdedPrepared();
    var runs := map["r" := ParseDemoRun(Obj(Crowded())).value];
    StateApplied(map[], CrowdedDraft(), map[]);
    assert map[]["r" := ParseDemoRun(Obj(Crowded())).value] == runs;
    CrowdedValue();
    CompactedExactly(Sizes, map["r" := CrowdedTaken()], Obj(Crowded()), CrowdedDraft(), CrowdedWritten(), runs);
  }

  lemma CrowdedValue()
    requires ParseDemoRun(Obj(Crowded())).Ok?
    ensures CrowdedTaken().value == NormalForm(Obj(Crowded()))
  {
    hide ParseDemoRun, NormalForm, Crowded;
  }

  lemma TwoPrepared(b0: Baselines, b1: Baselines, d0: EventDraft, o0: EventDraft, d1: EventDraft, o1: EventDraft)
    requires PreparedOne(Sizes, b0, d0, o0) && BaseAfter(b0, d0) == b1 && PreparedOne(Sizes, b1, d1, o1)
    ensures Prepared(Sizes, b0, [d0, d1], [o0, o1])
  {
    hide PreparedOne, BaseAfter;
    assert Prepared(Sizes, BaseAfter(b1, d1), [], []);
    assert [d0, d1][1..] == [d1] && [d1][1..] == [] && [o0, o1][1..] == [o1] && [o1][1..] == [];
    assert Prepared(Sizes, b1, [d1], [o1]);
  }

  lemma TwoReplayed(runs: Runs, a: EventDraft, b: EventDraft)
    requires ApplyEvent(runs, a).Ok?
    ensures Replay(runs, [a, b]) == ApplyEvent(ApplyEvent(runs, a).value, b)
  {
    hide ApplyEvent;
    var one := ApplyEvent(runs, a).value;
    assert [a, b][1..] == [b] && [b][1..] == [];
    assert Replay(one, [b]) == ApplyEvent(one, b) by {
      if ApplyEvent(one, b).Ok? { assert Replay(ApplyEvent(one, b).value, []) == Ok(ApplyEvent(one, b).value); }
    }
  }

  // --------------------------------------------------- an undeclared delta at work

  /** A draft that only brings a delta: it replaces the state by one with another answer. */
  ghost function Undeclared(): EventDraft
    requires ParseDemoRun(Obj(Plain(""))).Ok? && ParseDemoRun(Obj(Plain("x"))).Ok?
  {
    var a, b := Taken(""), Taken("x");
    var delta := RunStateDelta(1, a.hash, b.hash, [Operation([], Set(b.value))]);
    EventDraft("u", "run.updated", Some("r"), None, Some(delta), map[])
  }

  /** The three drafts are staged as one batch. In full they replay; as staged they do not,
      because the delta of the last was taken from a state that the second had replaced. */
  lemma UndeclaredDeltaExample()
    ensures ParseDemoRun(Obj(Plain(""))).Ok? && ParseDemoRun(Obj(Plain("x"))).Ok?
    ensures var drafts, outs := [Draft(), Undeclared(), Draft()], [Draft(), Undeclared(), Written()];
            Prepared(Sizes, map[], drafts, outs) && Replay(map[], drafts).Ok? && Replay(map[], outs).Err?
  {
    hide *;
    PlainIdentity("x");
    DraftFacts();
    DraftPrepared();
    UndeclaredPrepared();
    var base := map["r" := Taken("")];
    ThreePrepared(map[], base, base, Draft(), Draft(), Undeclared(), Undeclared(), Draft(), Written());
    OtherFacts();
    FirstApplied();
    SecondApplied();
    ThirdSplits();
    ThreeReplayed(map[], Draft(), Undeclared(), Draft());
    ThreeReplayed(map[], Draft(), Undeclared(), Written());
  }

  lemma UndeclaredPrepared()
    requires ParseDemoRun(Obj(Plain(""))).Ok? && ParseDemoRun(Obj(Plain("x"))).Ok?
    ensures var base := map["r" := Taken("")];
            PreparedOne(Sizes, base, Undeclared(), Undeclared()) && BaseAfter(base, Undeclared()) == base
  {
    hide ParseDemoRun, NormalForm, Plain;
    UndeclaredDeltaPasses(Sizes, map["r" := Taken("")], Undeclared(), Undeclared());
  }

  lemma ThreePrepared(b0: Baselines, b1: Baselines, b2: Baselines, d0: EventDraft, o0: EventDraft, d1: EventDraft,
                      o1: EventDraft, d2: EventDraft, o2: EventDraft)
    requires PreparedOne(Sizes, b0, d0, o0) && BaseAfter(b0, d0) == b1
    requires PreparedOne(Sizes, b1, d1, o1) && BaseAfter(b1, d1) == b2 && PreparedOne(Sizes, b2, d2, o2)
    ensures Prepared(Sizes, b0, [d0, d1, d2], [o0, o1, o2])
  {
    hide PreparedOne, BaseAfter;
    assert Prepared(Sizes, BaseAfter(b2, d2), [], []);
    assert [d0, d1, d2][1..] == [d1, d2] && [d1, d2][1..] == [d2] && [d2][1..] == [];
    assert [o0, o1, o2][1..] == [o1, o2] && [o1, o2][1..] == [o2] && [o2][1..] == [];
    assert Prepared(Sizes, b2, [d2], [o2]);
    assert Prepared(Sizes, b1, [d1, d2], [o1, o2]);
  }

  lemma ThreeReplayed(runs: Runs, a: EventDraft, b: EventDraft, c: EventDraft)
    requires ApplyEvent(runs, a).Ok? && ApplyEvent(ApplyEvent(runs, a).value, b).Ok?
    ensures Replay(runs, [a, b, c]) == ApplyEvent(ApplyEvent(ApplyEvent(runs, a).value, b).value, c)
  {
    hide ApplyEvent;
    var one := ApplyEvent(runs, a).value;
    var two := ApplyEvent(one, b).value;
    assert [a, b, c][1..] == [b, c] && [b, c][1..] == [c] && [c][1..] == [];
    assert Replay(two, [c]) == ApplyEvent(two, c) by {
      if ApplyEvent(two, c).Ok? { assert Replay(ApplyEvent(two, c).value, []) == Ok(ApplyEvent(two, c).value); }
    }
    assert Replay(one, [b, c]) == Replay(two, [c]);
  }

  lemma FirstApplied()
    requires ParseDemoRun(Obj(Plain(""))).Ok?
    ensures var run := ParseDemoRun(Obj(Plain(""))).value;
            ApplyEvent(map[], Draft()) == Ok(map["r" := run]) && Represents(Taken(""), "r", run)
  {
    hide ParseDemoRun, NormalForm, Plain, Admissible, Represents, Snapshot, Taken;
    DraftFacts();
    FreshBaseline(Draft());
  }

  /** The normal form of the other state reads back. */
  lemma OtherFacts()
    ensures ParseDemoRun(Obj(Plain("x"))).Ok?
    ensures var state := Taken("x").value;
            && state.Obj? && ParseDemoRun(state).Ok? && AttemptsFit(state) && NormalForm(state) == state
            && DepthAtMost(state, MAX_PATH)
            && StringAt(state, "runId") == Some("r") && StringAt(state, "threadId") == Some("t")
  {
    hide ParseDemoRun, DepthAtMost, HasRequired, Plain, NormalForm, AttemptsFit;
    PlainRun("x");
    PlainIdentity("x");
    PlainSnapshot("x");
    NormalFormStable(Obj(Plain("x")));
    NormalFormStable(Taken("x").value);
  }

  lemma SecondApplied()
    requires ParseDemoRun(Obj(Plain(""))).Ok? && ParseDemoRun(Obj(Plain("x"))).Ok?
    requires ParseDemoRun(Taken("x").value).Ok?
    ensures var runs := map["r" := ParseDemoRun(Obj(Plain(""))).value];
            var run := ParseDemoRun(Taken("x").value).value;
            ApplyEvent(runs, Undeclared()) == Ok(map["r" := run]) && Represents(Taken("x"), "r", run)
  {
    hide ParseDemoRun, DepthAtMost, HasRequired, Plain, NormalForm, AttemptsFit, Represents, ApplyEvent, StringAt;
    FirstApplied();
    OtherFacts();
    PlainIdentity("");
    PlainSnapshot("");
    UndeclaredApplies();
    var runs := map["r" := ParseDemoRun(Obj(Plain(""))).value];
    var state := Taken("x").value;
    UndeclaredDeltaMoves(Taken(""), "r", Undeclared(), runs, state);
    assert runs["r" := ParseDemoRun(state).value] == map["r" := ParseDemoRun(state).value];
  }

  lemma UndeclaredApplies()
    requires ParseDemoRun(Obj(Plain(""))).Ok? && ParseDemoRun(Obj(Plain("x"))).Ok?
    requires Taken("").value.Obj? && Taken("x").value.Obj?
    ensures ApplyDelta(Taken("").value, Undeclared().delta.value) == Ok(Taken("x").value)
  {
    hide ParseDemoRun, Plain, NormalForm;
    var op := Operation([], Set(Taken("x").value));
    assert [op][1..] == [];
    assert ApplyOperations(Taken("x").value, []) == Ok(Taken("x").value);
  }

  /** The answers differ, so the states do. */
  lemma StatesDiffer()
    requires ParseDemoRun(Obj(Plain(""))).Ok? && ParseDemoRun(Obj(Plain("x"))).Ok?
    ensures Taken("").value != Taken("x").value
  {
    AnswerKept("");
    AnswerKept("x");
    hide ParseDemoRun, NormalForm;
  }

  lemma AnswerKept(text: string)
    requires ParseDemoRun(Obj(Plain(text))).Ok?
    ensures StringAt(NormalForm(Obj(Plain(text))), "assistantText") == Some(text)
  {
    NormalFormFields(Obj(Plain(text)));
    RequiredSurvive(Plain(text), NormalForm(Obj(Plain(text))).fields);
    hide ParseDemoRun, NormalForm, HasRequired, Durable, StoredAs;
  }

  lemma ThirdSplits()
    requires ParseDemoRun(Obj(Plain(""))).Ok? && ParseDemoRun(Obj(Plain("x"))).Ok?
    requires ParseDemoRun(Taken("x").value).Ok?
    ensures var runs := map["r" := ParseDemoRun(Taken("x").value).value];
            ApplyEvent(runs, Draft()).Ok? && ApplyEvent(runs, Written()).Err?
  {
    hide ParseDemoRun, DepthAtMost, Plain, NormalForm, Represents, ApplyEvent, Admissible, Snapshot, CompactedTo;
    DraftFacts();
    SecondApplied();
    StatesDiffer();
    WrittenIsShort();
    WrittenIsCompacted();
    var base := map["r" := Taken("")];
    var runs := map["r" := ParseDemoRun(Taken("x").value).value];
    UndeclaredDeltaExactly(Sizes, base, Draft(), Written(), runs, Taken("x"));
  }

  lemma WrittenIsCompacted()
    requires ParseDemoRun(Obj(Plain(""))).Ok?
    ensures CompactedTo(Sizes, map["r" := Taken("")], Draft(), Taken(""), Written())
  {
    hide ParseDemoRun, NormalForm, DepthAtMost, Projection, Plain, EffortOf;
    var s := Taken("");
    EqualTakesNothing(s.value);
    assert LeadsFromTo(RunStateDelta(1, s.hash, s.hash, []), s.value, s.value);
  }
}
