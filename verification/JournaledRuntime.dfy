/** How runtime.ts drives its journal. Every method is one synchronous stretch of the runtime.
    As long as all states are modest, every sequence of calls is a run of JournalRuns. */
module JournaledRuntime {
  import opened Results
  import opened Json
  import opened RunStateDelta
  import opened RunStateDiff
  import opened DiffEffort
  import opened DemoRunForm
  import opened RunJournal
  import opened JournalRuns

  // ---------------------------------------------------------------- modest states

  const HALF := MAX_OPERATIONS / 2

  /** Its state can be compacted against any other such state. */
  ghost predicate Modest(draft: EventDraft) {
    && Admissible(draft)
    && (draft.run.Some? && ParseDemoRun(draft.run.value).Ok? ==> Nodes(NormalForm(draft.run.value)) <= HALF)
  }

  ghost predicate AllModest(drafts: seq<EventDraft>) {
    forall i :: 0 <= i < |drafts| ==> Modest(drafts[i])
  }

  ghost predicate ModestBaselines(base: Baselines) {
    forall id :: id in base ==> DepthAtMost(base[id].value, MAX_PATH) && Nodes(base[id].value) <= HALF
  }

  lemma SnapshotModest(draft: EventDraft)
    requires Modest(draft) && Snapshot(draft.run).Ok? && Snapshot(draft.run).value.Some?
    ensures var current := Snapshot(draft.run).value.value.value;
            DepthAtMost(current, MAX_PATH) && Nodes(current) <= HALF
  {
    hide ParseDemoRun, NormalForm, DepthAtMost, Nodes, HasRequired;
  }

  lemma ModestAfter(base: Baselines, draft: EventDraft)
    requires ModestBaselines(base) && Modest(draft)
    ensures ModestBaselines(BaseAfter(base, draft))
  {
    hide Snapshot, Modest, DepthAtMost, Nodes;
    if Snapshot(draft.run).Ok? && Snapshot(draft.run).value.Some? { SnapshotModest(draft); }
  }

  lemma {:induction false} ModestAfterAll(base: Baselines, drafts: seq<EventDraft>)
    requires ModestBaselines(base) && AllModest(drafts)
    ensures ModestBaselines(BaseAfterAll(base, drafts))
    decreases |drafts|
  {
    hide ModestBaselines, Modest, BaseAfter;
    if drafts != [] {
      ModestAfter(base, drafts[0]);
      ModestAfterAll(BaseAfter(base, drafts[0]), drafts[1..]);
    }
  }

  lemma ModestOne(bytes: Payload -> nat, base: Baselines, draft: EventDraft, out: EventDraft)
    requires ModestBaselines(base) && Modest(draft) && PreparedOne(bytes, base, draft, out)
    ensures FewOperations(out)
  {
    hide Snapshot, DepthAtMost, Nodes, EffortOf, LeadsFromTo, Projection, ParseDemoRun, NormalForm;
    if out != draft {
      var current := Snapshot(draft.run).value.value;
      SnapshotModest(draft);
      SnapshotHashed(draft.run);
      ModestFewOperations(bytes, base, draft, out, current);
    }
  }

  /** Staging modest drafts writes deltas that replay can apply. */
  lemma {:induction false} ModestBatch(bytes: Payload -> nat, base: Baselines, drafts: seq<EventDraft>,
                                       outs: seq<EventDraft>)
    requires ModestBaselines(base) && AllModest(drafts)
    requires Prepared(bytes, base, drafts, outs)
    ensures AllAdmissible(drafts) && AllFewOperations(outs)
    decreases |drafts|
  {
    hide ModestBaselines, BaseAfter, PreparedOne, Admissible, FewOperations, ParseDemoRun, NormalForm, Nodes;
    if drafts != [] {
      ModestOne(bytes, base, drafts[0], outs[0]);
      ModestAfter(base, drafts[0]);
      ModestBatch(bytes, BaseAfter(base, drafts[0]), drafts[1..], outs[1..]);
    }
  }

  /** What a modest draft can still be refused for. */
  lemma ModestRefused(base: Baselines, draft: EventDraft, error: JournalError)
    requires ModestBaselines(base) && Modest(draft) && Refused(base, draft, error)
    ensures error == RunRejected || error == IdentityMismatch
  {
    hide Snapshot, DepthAtMost, Nodes, EffortOf, ParseDemoRun, NormalForm, Diffable;
    if Snapshot(draft.run).Ok? && Snapshot(draft.run).value.Some? {
      SnapshotModest(draft);
      if draft.runId.Some? && draft.runId.value in base {
        ModestIsEnough(base[draft.runId.value].value, Snapshot(draft.run).value.value.value);
      }
    }
  }

  // ---------------------------------------------------------------- runs of the world

  lemma Extend(bytes: Payload -> nat, worlds: seq<World>, actions: seq<Action>, action: Action, next: World)
    requires IsRun(bytes, worlds, actions) && Next(bytes, worlds[|actions|], action, next)
    ensures IsRun(bytes, worlds + [next], actions + [action])
  {
    hide Next;
  }

  function Committed(d: Ledger, drafts: seq<EventDraft>, staged: StagedBatch, checkpoint: Option<Runs>): Ledger {
    match checkpoint
    case Some(recovered) => Ledger(recovered, [], [], map[])
    case None => Ledger(d.start, d.original + drafts, d.compacted + staged.events, staged.snapshots)
  }

  /** A batch that is staged and committed at once adds two steps to the run. */
  lemma StageAndCommit(bytes: Payload -> nat, worlds: seq<World>, actions: seq<Action>, drafts: seq<EventDraft>,
                       staged: StagedBatch, checkpoint: Option<Runs>)
    returns (worlds': seq<World>, actions': seq<Action>)
    requires |worlds| == |actions| + 1 && IsRun(bytes, worlds, actions)
    requires AllAdmissible(drafts) && AllFewOperations(staged.events)
    requires var w := worlds[|actions|];
             && staged.revision == w.revision && Prepared(bytes, w.durable.baselines, drafts, staged.events)
             && staged.snapshots == BaseAfterAll(w.durable.baselines, drafts)
    ensures |worlds'| == |actions'| + 1 && IsRun(bytes, worlds', actions')
    ensures var w, w' := worlds[|actions|], worlds'[|actions'|];
            && w'.durable == Committed(w.durable, drafts, staged, checkpoint)
            && w'.revision == w.revision + 1 && w'.saved == w.saved
  {
    hide IsRun, Prepared, BaseAfterAll, AllAdmissible, AllFewOperations, ForgetEnded, Stateless;
    var w := worlds[|actions|];
    var first := StageBatch(drafts, staged);
    var open := w.(stages := w.stages + [JournalRuns.Stage(w.durable.baselines, drafts, staged)]);
    var second :=
      if checkpoint.Some? then CommitWithCheckpoint(|w.stages|, checkpoint.value) else CommitStage(|w.stages|);
    var done := open.(revision := w.revision + 1, durable := Committed(w.durable, drafts, staged, checkpoint));
    Extend(bytes, worlds, actions, first, open);
    Extend(bytes, worlds + [open], actions + [first], second, done);
    worlds', actions' := worlds + [open] + [done], actions + [first] + [second];
  }

  /** What an open unit of work restores when it fails. */
  datatype Saved = Saved(start: Runs, log: seq<EventDraft>, snapshots: Baselines)

  function SavedOf(d: Ledger): Saved {
    Saved(d.start, d.compacted, d.baselines)
  }

  /** Each saved copy is that of its ledger. */
  ghost predicate Copies(ledgers: seq<Ledger>, saved: seq<Saved>) {
    && |ledgers| == |saved|
    && forall i :: 0 <= i < |saved| ==> SavedOf(ledgers[i]) == saved[i] && Hashed(saved[i].snapshots)
  }

  ghost predicate ModestSaved(saved: seq<Saved>) {
    forall i :: 0 <= i < |saved| ==> ModestBaselines(saved[i].snapshots)
  }

  /** The last world of a run looks like this. */
  ghost predicate Reaches(bytes: Payload -> nat, worlds: seq<World>, actions: seq<Action>, now: Ledger, revision: nat,
                          saved: seq<Ledger>) {
    && |worlds| == |actions| + 1 && IsRun(bytes, worlds, actions)
    && worlds[|actions|].durable == now && worlds[|actions|].revision == revision && worlds[|actions|].saved == saved
  }

  /** One more step. */
  lemma ReachesNext(bytes: Payload -> nat, worlds: seq<World>, actions: seq<Action>, action: Action, next: World)
    requires |worlds| == |actions| + 1 && IsRun(bytes, worlds, actions)
    requires Next(bytes, worlds[|actions|], action, next)
    ensures Reaches(bytes, worlds + [next], actions + [action], next.durable, next.revision, next.saved)
  {
    hide Next, IsRun;
    Extend(bytes, worlds, actions, action, next);
  }

  // ---------------------------------------------------------- how each step extends a run

  lemma ForgetTracks(bytes: Payload -> nat, worlds: seq<World>, actions: seq<Action>, d: Ledger, revision: nat,
                     saved: seq<Ledger>, id: string)
    returns (worlds': seq<World>, actions': seq<Action>)
    requires Reaches(bytes, worlds, actions, d, revision, saved)
    ensures Reaches(bytes, worlds', actions', d.(baselines := d.baselines - {id}),
                    if id in d.baselines then revision + 1 else revision, saved)
  {
    hide IsRun, ForgetEnded, Stateless, Prepared, BaseAfterAll, OnlyDropped;
    var w := worlds[|actions|];
    var next := w.(revision := if id in d.baselines then w.revision + 1 else w.revision,
                   durable := w.durable.(baselines := w.durable.baselines - {id}));
    ReachesNext(bytes, worlds, actions, ForgetRun(id), next);
    worlds', actions' := worlds + [next], actions + [ForgetRun(id)];
  }

  function Appended(w: World, events: seq<EventDraft>): World
    requires |ForgetEnded(w.durable.baselines, events)| <= |w.durable.baselines|
  {
    var d, kept := w.durable, ForgetEnded(w.durable.baselines, events);
    w.(revision := w.revision + (|d.baselines| - |kept|),
       durable := Ledger(d.start, d.original + events, d.compacted + events, kept))
  }

  lemma AppendedNext(bytes: Payload -> nat, w: World, events: seq<EventDraft>)
    requires forall i :: 0 <= i < |events| ==> Stateless(events[i])
    requires |ForgetEnded(w.durable.baselines, events)| <= |w.durable.baselines|
    ensures Next(bytes, w, AppendStateless(events), Appended(w, events))
  {
    hide Prepared, BaseAfterAll, AllAdmissible, AllFewOperations, OnlyDropped, Stateless, ForgetEnded;
  }

  lemma AppendTracks(bytes: Payload -> nat, worlds: seq<World>, actions: seq<Action>, d: Ledger, revision: nat,
                     saved: seq<Ledger>, events: seq<EventDraft>)
    returns (worlds': seq<World>, actions': seq<Action>)
    requires Reaches(bytes, worlds, actions, d, revision, saved)
    requires forall i :: 0 <= i < |events| ==> Stateless(events[i])
    requires |ForgetEnded(d.baselines, events)| <= |d.baselines|
    ensures Reaches(bytes, worlds', actions', Ledger(d.start, d.original + events, d.compacted + events,
                                                     ForgetEnded(d.baselines, events)),
                    revision + (|d.baselines| - |ForgetEnded(d.baselines, events)|), saved)
  {
    hide Next, IsRun, OnlyDropped, Stateless, ForgetEnded;
    var w := worlds[|actions|];
    AppendedNext(bytes, w, events);
    ReachesNext(bytes, worlds, actions, AppendStateless(events), Appended(w, events));
    worlds', actions' := worlds + [Appended(w, events)], actions + [AppendStateless(events)];
  }

  lemma BeginTracks(bytes: Payload -> nat, worlds: seq<World>, actions: seq<Action>, d: Ledger, revision: nat,
                    saved: seq<Ledger>)
    returns (worlds': seq<World>, actions': seq<Action>)
    requires Reaches(bytes, worlds, actions, d, revision, saved)
    ensures Reaches(bytes, worlds', actions', d, revision, saved + [d])
  {
    hide IsRun, ForgetEnded, Stateless, Prepared, BaseAfterAll, OnlyDropped;
    var w := worlds[|actions|];
    var next := w.(saved := w.saved + [d]);
    ReachesNext(bytes, worlds, actions, Action.Begin, next);
    worlds', actions' := worlds + [next], actions + [Action.Begin];
  }

  lemma ReturnTracks(bytes: Payload -> nat, worlds: seq<World>, actions: seq<Action>, d: Ledger, revision: nat,
                     saved: seq<Ledger>)
    returns (worlds': seq<World>, actions': seq<Action>)
    requires Reaches(bytes, worlds, actions, d, revision, saved) && saved != []
    ensures Reaches(bytes, worlds', actions', d, revision, saved[..|saved| - 1])
  {
    hide IsRun, ForgetEnded, Stateless, Prepared, BaseAfterAll, OnlyDropped;
    var w := worlds[|actions|];
    var next := w.(saved := w.saved[..|w.saved| - 1]);
    ReachesNext(bytes, worlds, actions, Succeed, next);
    worlds', actions' := worlds + [next], actions + [Succeed];
  }

  function Thrown(w: World): World
    requires w.saved != []
  {
    w.(saved := w.saved[..|w.saved| - 1], durable := w.saved[|w.saved| - 1], revision := w.revision + 1)
  }

  lemma ThrownNext(bytes: Payload -> nat, w: World)
    requires w.saved != []
    ensures Next(bytes, w, Action.Fail, Thrown(w))
  {
    hide Prepared, BaseAfterAll, AllAdmissible, AllFewOperations, OnlyDropped, Stateless, ForgetEnded;
  }

  lemma ThrowTracks(bytes: Payload -> nat, worlds: seq<World>, actions: seq<Action>, d: Ledger, revision: nat,
                    saved: seq<Ledger>)
    returns (worlds': seq<World>, actions': seq<Action>)
    requires Reaches(bytes, worlds, actions, d, revision, saved) && saved != []
    ensures Reaches(bytes, worlds', actions', saved[|saved| - 1], revision + 1, saved[..|saved| - 1])
  {
    hide Next, IsRun, OnlyDropped, Stateless, ForgetEnded;
    var w := worlds[|actions|];
    ThrownNext(bytes, w);
    ReachesNext(bytes, worlds, actions, Action.Fail, Thrown(w));
    worlds', actions' := worlds + [Thrown(w)], actions + [Action.Fail];
  }

  function Abandoned(w: World): World
    requires w.saved != []
  {
    w.(saved := w.saved[..|w.saved| - 1], durable := w.saved[|w.saved| - 1].(baselines := w.durable.baselines))
  }

  lemma AbandonedNext(bytes: Payload -> nat, w: World)
    requires w.saved != [] && OnlyDropped(w.durable.baselines, w.saved[|w.saved| - 1].baselines)
    ensures Next(bytes, w, Action.Abandon, Abandoned(w))
  {
    hide Prepared, BaseAfterAll, AllAdmissible, AllFewOperations, OnlyDropped, Stateless, ForgetEnded;
  }

  lemma AbandonTracks(bytes: Payload -> nat, worlds: seq<World>, actions: seq<Action>, d: Ledger, revision: nat,
                      saved: seq<Ledger>)
    returns (worlds': seq<World>, actions': seq<Action>)
    requires Reaches(bytes, worlds, actions, d, revision, saved) && saved != []
    requires OnlyDropped(d.baselines, saved[|saved| - 1].baselines)
    ensures Reaches(bytes, worlds', actions', saved[|saved| - 1].(baselines := d.baselines), revision,
                    saved[..|saved| - 1])
  {
    hide Next, IsRun, OnlyDropped, Stateless, ForgetEnded;
    var w := worlds[|actions|];
    AbandonedNext(bytes, w);
    ReachesNext(bytes, worlds, actions, Action.Abandon, Abandoned(w));
    worlds', actions' := worlds + [Abandoned(w)], actions + [Action.Abandon];
  }

  function Restarted(w: World): World
  {
    World((if w.saved == [] then w.durable else w.saved[0]).(baselines := map[]), 0, [], [])
  }

  lemma RestartedNext(bytes: Payload -> nat, w: World)
    ensures Next(bytes, w, Action.Restart, Restarted(w))
  {
    hide Prepared, BaseAfterAll, AllAdmissible, AllFewOperations, OnlyDropped, Stateless, ForgetEnded;
  }

  lemma RestartTracks(bytes: Payload -> nat, worlds: seq<World>, actions: seq<Action>, d: Ledger, revision: nat,
                      saved: seq<Ledger>)
    returns (worlds': seq<World>, actions': seq<Action>)
    requires Reaches(bytes, worlds, actions, d, revision, saved)
    ensures Reaches(bytes, worlds', actions', (if saved == [] then d else saved[0]).(baselines := map[]), 0, [])
  {
    hide Next, IsRun, OnlyDropped, Stateless, ForgetEnded;
    var w := worlds[|actions|];
    RestartedNext(bytes, w);
    ReachesNext(bytes, worlds, actions, Action.Restart, Restarted(w));
    worlds', actions' := worlds + [Restarted(w)], actions + [Action.Restart];
  }

  lemma CopiesMore(ledgers: seq<Ledger>, saved: seq<Saved>, d: Ledger)
    requires Copies(ledgers, saved) && Hashed(d.baselines)
    ensures Copies(ledgers + [d], saved + [SavedOf(d)])
    ensures ModestSaved(saved) && ModestBaselines(d.baselines) ==> ModestSaved(saved + [SavedOf(d)])
  {
    hide Hashed, ModestBaselines;
  }

  lemma CopiesFewer(ledgers: seq<Ledger>, saved: seq<Saved>)
    requires Copies(ledgers, saved) && saved != []
    ensures |ledgers| == |saved| && Copies(ledgers[..|ledgers| - 1], saved[..|saved| - 1])
    ensures SavedOf(ledgers[0]) == saved[0] && SavedOf(ledgers[|ledgers| - 1]) == saved[|saved| - 1]
    ensures Hashed(saved[|saved| - 1].snapshots)
    ensures ModestSaved(saved) ==> ModestSaved(saved[..|saved| - 1]) && ModestBaselines(saved[|saved| - 1].snapshots)
  {
    hide Hashed, ModestBaselines;
  }

  lemma NoCopies(ledgers: seq<Ledger>, saved: seq<Saved>)
    ensures Copies([], []) && ModestSaved([])
    ensures Copies(ledgers, saved) ==> (ledgers == [] <==> saved == [])
  {
  }

  lemma SoundMinus(base: Baselines, id: string)
    requires Hashed(base)
    ensures Hashed(base - {id}) && (ModestBaselines(base) ==> ModestBaselines(base - {id}))
  {
    hide DepthAtMost, Nodes;
  }

  datatype CommitError = NotStaged(error: JournalError) | StoreThrew | NotCommitted

  class PersistentRuntime {
    const journal: DemoRunPersistenceJournal
    /** The event rows since the last checkpoint, and the runs which that restores. */
    var start: Runs
    var log: seq<EventDraft>
    var saved: seq<Saved>
    /** The same rows, as they would be had nothing been compacted. */
    ghost var full: seq<EventDraft>
    ghost var ledgers: seq<Ledger>
    /** Every state so far was modest; then this is the run that led here. */
    ghost var modest: bool
    ghost var worlds: seq<World>
    ghost var actions: seq<Action>

    ghost function Now(): Ledger
      reads this, journal
    {
      Ledger(start, full, log, journal.snapshots)
    }

    ghost predicate Valid()
      reads this, journal
    {
      && Hashed(journal.snapshots) && Copies(ledgers, saved)
      && (modest ==>
            && Reaches(journal.bytes, worlds, actions, Now(), journal.revision, ledgers)
            && ModestBaselines(journal.snapshots) && ModestSaved(saved))
    }

    constructor (bytes: Payload -> nat, recovered: Runs)
      ensures Valid() && fresh(journal) && journal.bytes == bytes
      ensures start == recovered && log == [] && saved == [] && full == [] && modest
    {
      journal := new DemoRunPersistenceJournal(bytes);
      start, log, saved, full, ledgers, modest := recovered, [], [], [], [], true;
      worlds, actions := [World(Ledger(recovered, [], [], map[]), 0, [], [])], [];
      new;
      NoneModest();
    }

    /** The process is started again: the store has the rows that were committed, and the
        journal is empty. */
    constructor Restart(previous: PersistentRuntime)
      requires previous.Valid()
      ensures Valid() && fresh(journal) && journal.snapshots == map[] && saved == [] && modest == previous.modest
      ensures previous.saved == [] ==> start == previous.start && log == previous.log && full == previous.full
      ensures previous.saved != [] ==>
                start == previous.saved[0].start && log == previous.saved[0].log && full == previous.ledgers[0].original
    {
      journal := new DemoRunPersistenceJournal(previous.journal.bytes);
      start := if previous.saved == [] then previous.start else previous.saved[0].start;
      log := if previous.saved == [] then previous.log else previous.saved[0].log;
      full := if previous.saved == [] then previous.full else previous.ledgers[0].original;
      saved, ledgers, modest := [], [], previous.modest;
      worlds, actions := previous.worlds, previous.actions;
      new;
      hide Reaches, ModestBaselines, Hashed, Copies, ModestSaved;
      NoneModest();
      NoCopies(previous.ledgers, previous.saved);
      if previous.saved != [] { CopiesFewer(previous.ledgers, previous.saved); }
      if modest {
        worlds, actions := RestartTracks(journal.bytes, worlds, actions, previous.Now(), previous.journal.revision,
                                         previous.ledgers);
      }
    }

    /** `forget` */
    method Forget(runId: string)
      requires Valid()
      modifies `worlds, `actions, journal
      ensures Valid() && journal.snapshots == old(journal.snapshots) - {runId}
    {
      hide Reaches, ModestBaselines, Hashed, Copies, ModestSaved;
      SoundMinus(journal.snapshots, runId);
      if modest {
        worlds, actions := ForgetTracks(journal.bytes, worlds, actions, Now(), journal.revision, ledgers, runId);
      }
      journal.Forget(runId);
    }

    /** `recordCommittedEvents`, after rows with state: the runs that ended are forgotten. */
    method RecordCommittedEvents(events: seq<EventDraft>)
      requires Valid()
      modifies `worlds, `actions, journal
      ensures Valid() && journal.snapshots == ForgetEnded(old(journal.snapshots), events)
    {
      hide Copies, Reaches, ModestBaselines, Hashed;
      for i := 0 to |events|
        invariant Valid()
        invariant ForgetEnded(journal.snapshots, events[i..]) == ForgetEnded(old(journal.snapshots), events)
      {
        assert events[i..][0] == events[i] && events[i..][1..] == events[i + 1..];
        if Attributed(events[i]) && Terminal(events[i].eventType) { Forget(events[i].runId.value); }
      }
    }

    /** The write of rows without state, `commitEvents` and `recordCommittedEvents`. */
    method CommitEvents(events: seq<EventDraft>)
      requires Valid() && forall i :: 0 <= i < |events| ==> Stateless(events[i])
      modifies `log, `full, `worlds, `actions, journal
      ensures Valid() && log == old(log) + events && full == old(full) + events
      ensures journal.snapshots == ForgetEnded(old(journal.snapshots), events)
    {
      hide Reaches, ModestBaselines, Hashed, Copies, ModestSaved, ForgetEnded, Stateless;
      ForgetEndedShrinks(journal.snapshots, events);
      SoundForgotten(journal.snapshots, events);
      if modest {
        worlds, actions := AppendTracks(journal.bytes, worlds, actions, Now(), journal.revision, ledgers, events);
      }
      log, full := log + events, full + events;
      ForgetEndedRuns(journal, events);
    }

    /** The loop of `recordCommittedEvents`. */
    static method ForgetEndedRuns(journal: DemoRunPersistenceJournal, events: seq<EventDraft>)
      requires journal.Valid()
      modifies journal
      ensures journal.Valid() && journal.snapshots == ForgetEnded(old(journal.snapshots), events)
      ensures journal.revision + |journal.snapshots| == old(journal.revision) + |old(journal.snapshots)|
    {
      hide Hashed;
      for i := 0 to |events|
        invariant journal.Valid()
        invariant ForgetEnded(journal.snapshots, events[i..]) == ForgetEnded(old(journal.snapshots), events)
        invariant journal.revision + |journal.snapshots| == old(journal.revision) + |old(journal.snapshots)|
      {
        assert events[i..][0] == events[i] && events[i..][1..] == events[i + 1..];
        if Attributed(events[i]) && Terminal(events[i].eventType) {
          SmallerMap(journal.snapshots, events[i].runId.value);
          journal.Forget(events[i].runId.value);
        }
      }
    }

    /** `commitProjectedEvents`: staging, the write and the commit of the stage, with nothing
        in between. `stored` says whether the store takes the rows, `checkpoint` gives the
        runs of the checkpoint that it writes with them. */
    method CommitProjectedEvents(drafts: seq<EventDraft>, stored: bool, checkpoint: Option<Runs>)
      returns (outcome: Outcome<CommitError>)
      requires Valid()
      modifies `start, `log, `full, `modest, `worlds, `actions, journal
      ensures Valid()
      ensures modest == (old(modest) && (outcome.Pass? ==> AllModest(drafts)))
      ensures outcome.Fail? ==>
                && start == old(start) && log == old(log) && full == old(full)
                && journal.snapshots == old(journal.snapshots) && journal.revision == old(journal.revision)
                && (outcome.error == StoreThrew
                    || (outcome.error.NotStaged? && RefusedAmong(journal.snapshots, drafts, outcome.error.error)))
      ensures outcome.Fail? && old(modest) && AllModest(drafts) ==>
                outcome.error in {NotStaged(RunRejected), NotStaged(IdentityMismatch), StoreThrew}
      ensures outcome.Pass? ==>
                match checkpoint
                case Some(recovered) =>
                  start == recovered && log == [] && full == [] && journal.snapshots == map[]
                case None =>
                  && start == old(start) && old(log) <= log && full == old(full) + drafts
                  && Prepared(journal.bytes, old(journal.snapshots), drafts, log[|old(log)|..])
                  && journal.snapshots == BaseAfterAll(old(journal.snapshots), drafts)
    {
      hide Reaches, ModestBaselines, AllModest, Prepared, BaseAfterAll, Copies, ModestSaved, Refused, Hashed;
      var staged := journal.Stage(drafts);
      if staged.Err? {
        if modest && AllModest(drafts) { RefusedModestly(journal.snapshots, drafts, staged.error); }
        return Outcome.Fail(NotStaged(staged.error));
      }
      if !stored || drafts == [] { return Outcome.Fail(StoreThrew); }
      outcome := Install(drafts, staged.value, checkpoint);
    }

    /** The rows of a stage just taken are written and the stage is committed: it cannot be
        stale. */
    method Install(drafts: seq<EventDraft>, staged: StagedBatch, checkpoint: Option<Runs>)
      returns (outcome: Outcome<CommitError>)
      requires Valid()
      requires staged.revision == journal.revision && Prepared(journal.bytes, journal.snapshots, drafts, staged.events)
      requires staged.snapshots == BaseAfterAll(journal.snapshots, drafts) && Hashed(staged.snapshots)
      modifies `start, `log, `full, `modest, `worlds, `actions, journal
      ensures Valid() && outcome == Pass && modest == (old(modest) && AllModest(drafts))
      ensures match checkpoint
              case Some(recovered) =>
                start == recovered && log == [] && full == [] && journal.snapshots == map[]
              case None =>
                && start == old(start) && log == old(log) + staged.events
                && full == old(full) + drafts && journal.snapshots == staged.snapshots
    {
      NoneModest();
      hide ModestBaselines, Hashed, AllModest, Prepared, BaseAfterAll, AllAdmissible, AllFewOperations, Copies, IsRun;
      modest := modest && AllModest(drafts);
      if modest {
        ModestBatch(journal.bytes, journal.snapshots, drafts, staged.events);
        ModestAfterAll(journal.snapshots, drafts);
        worlds, actions := StageAndCommit(journal.bytes, worlds, actions, drafts, staged, checkpoint);
      }
      match checkpoint {
        case Some(recovered) => start, log, full := recovered, [], [];
        case None => log, full := log + staged.events, full + drafts;
      }
      var done := journal.Commit(staged, checkpoint.Some?);
      outcome := if done.Pass? then Pass else Outcome.Fail(NotCommitted);
    }

    /** A unit of work begins: the transaction and, in `runInUnitOfWork`, the copy that
        `rollbackOnFailure` makes. */
    method Begin()
      requires Valid()
      modifies `saved, `ledgers, `worlds, `actions
      ensures Valid() && saved == old(saved) + [Saved(start, log, journal.snapshots)]
      ensures ledgers == old(ledgers) + [Now()]
    {
      hide Reaches, ModestBaselines, Hashed, Copies, ModestSaved;
      CopiesMore(ledgers, saved, Now());
      if modest {
        worlds, actions := BeginTracks(journal.bytes, worlds, actions, Now(), journal.revision, ledgers);
      }
      saved, ledgers := saved + [Saved(start, log, journal.snapshots)], ledgers + [Now()];
    }

    /** Its operation returns. */
    method Return()
      requires Valid() && saved != []
      modifies `saved, `ledgers, `worlds, `actions
      ensures Valid() && saved == old(saved)[..|old(saved)| - 1]
    {
      hide Reaches, ModestBaselines, Hashed, Copies, ModestSaved;
      CopiesFewer(ledgers, saved);
      if modest {
        worlds, actions := ReturnTracks(journal.bytes, worlds, actions, Now(), journal.revision, ledgers);
      }
      saved, ledgers := saved[..|saved| - 1], ledgers[..|ledgers| - 1];
    }

    /** Its operation throws: the transaction takes its rows back and the journal its copy. */
    method Throw()
      requires Valid() && saved != []
      modifies this, journal
      ensures Valid() && saved == old(saved)[..|old(saved)| - 1] && modest == old(modest)
      ensures Saved(start, log, journal.snapshots) == old(saved)[|old(saved)| - 1]
      ensures full == old(ledgers)[|old(ledgers)| - 1].original && journal.revision == old(journal.revision) + 1
    {
      hide Reaches, ModestBaselines, Hashed, Copies, ModestSaved;
      CopiesFewer(ledgers, saved);
      if modest {
        worlds, actions := ThrowTracks(journal.bytes, worlds, actions, Now(), journal.revision, ledgers);
      }
      var last := saved[|saved| - 1];
      full, ledgers := ledgers[|ledgers| - 1].original, ledgers[..|ledgers| - 1];
      start, log, saved := last.start, last.log, saved[..|saved| - 1];
      journal.RollBack(last.snapshots);
    }

    /** The operation of a unit that was run without the journal throws: only the rows go
        back. Such a unit stages no state. */
    method Abandon()
      requires Valid() && saved != [] && OnlyDropped(journal.snapshots, saved[|saved| - 1].snapshots)
      modifies this
      ensures Valid() && saved == old(saved)[..|old(saved)| - 1] && modest == old(modest)
      ensures start == old(saved)[|old(saved)| - 1].start && log == old(saved)[|old(saved)| - 1].log
      ensures full == old(ledgers)[|old(ledgers)| - 1].original
    {
      hide Reaches, ModestBaselines, Hashed, Copies, ModestSaved, OnlyDropped;
      CopiesFewer(ledgers, saved);
      if modest {
        worlds, actions := AbandonTracks(journal.bytes, worlds, actions, Now(), journal.revision, ledgers);
      }
      var last := saved[|saved| - 1];
      full, ledgers := ledgers[|ledgers| - 1].original, ledgers[..|ledgers| - 1];
      start, log, saved := last.start, last.log, saved[..|saved| - 1];
    }

    /** The replay of the rows. While all states are modest, it finds the runs that the rows
        would give had nothing been compacted. */
    method Recover() returns (projection: RunProjection, outcome: Outcome<ReplayError>)
      requires Valid()
      ensures fresh(projection)
      ensures outcome.Pass? <==> Replay(start, log).Ok?
      ensures outcome.Pass? ==> projection.runs == Replay(start, log).value
      ensures modest ==> (outcome.Pass? <==> Replay(start, full).Ok?)
      ensures modest && outcome.Pass? ==> Same(Replay(start, full).value, projection.runs)
      ensures modest && outcome.Pass? ==> Coherent(journal.snapshots, projection.runs)
      ensures modest && (forall e :: e in full && e.run.Some? ==> ParseDemoRun(e.run.value).Ok?) ==> outcome.Pass?
    {
      if modest { ReplayEquivalence(journal.bytes, worlds, actions); }
      hide IsRun, ModestBaselines, Replay, Same, Coherent, ParseDemoRun, Hashed, Copies;
      projection := new RunProjection(start);
      outcome := projection.ApplyAll(log);
    }
  }

  /** One of the drafts is refused against the baselines left by the earlier ones. */
  ghost predicate RefusedAmong(base: Baselines, drafts: seq<EventDraft>, error: JournalError) {
    exists k :: 0 <= k < |drafts| && Refused(BaseAfterAll(base, drafts[..k]), drafts[k], error)
  }

  lemma RefusedModestly(base: Baselines, drafts: seq<EventDraft>, error: JournalError)
    requires ModestBaselines(base) && AllModest(drafts)
    requires RefusedAmong(base, drafts, error)
    ensures error == RunRejected || error == IdentityMismatch
  {
    hide Modest, Refused, BaseAfterAll, ModestBaselines;
    var k :| 0 <= k < |drafts| && Refused(BaseAfterAll(base, drafts[..k]), drafts[k], error);
    ModestAfterAll(base, drafts[..k]);
    ModestRefused(BaseAfterAll(base, drafts[..k]), drafts[k], error);
  }

  lemma NoneModest()
    ensures ModestBaselines(map[]) && Hashed(map[])
  {
  }

  lemma SmallerMap(base: Baselines, id: string)
    ensures |base - {id}| == if id in base then |base| - 1 else |base|
  {
    assert (base - {id}).Keys == base.Keys - {id};
    assert |base - {id}| == |(base - {id}).Keys| && |base| == |base.Keys|;
  }

  lemma {:induction false} SoundForgotten(base: Baselines, events: seq<EventDraft>)
    requires Hashed(base)
    ensures Hashed(ForgetEnded(base, events))
    ensures ModestBaselines(base) ==> ModestBaselines(ForgetEnded(base, events))
    decreases |events|
  {
    hide Hashed, ModestBaselines;
    if events != [] {
      var e := events[0];
      if Attributed(e) && Terminal(e.eventType) { SoundMinus(base, e.runId.value); }
      SoundForgotten(if Attributed(e) && Terminal(e.eventType) then base - {e.runId.value} else base, events[1..]);
    }
  }
}
