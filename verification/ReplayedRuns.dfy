/** Which runs a replay of the log finds, in terms of the events alone. */
module ReplayedRuns {
  import opened Results
  import opened DemoRunForm
  import opened RunStateDelta
  import opened RunJournal
  import opened JournalRuns

  /** The event concerns this run. */
  predicate Concerns(e: EventDraft, id: string) {
    e.runId == Some(id) && id != ""
  }

  /** The run is over, or waits for its user. */
  predicate Ends(e: EventDraft, id: string) {
    Concerns(e, id)
    && (e.eventType == "run.completed" || e.eventType == "run.failed" || e.eventType == "run.cancelled"
        || e.eventType == "run.paused")
  }

  /** The event brings a new state of the run. */
  predicate Brings(e: EventDraft, id: string) {
    Concerns(e, id) && !Ends(e, id) && e.run.Some?
  }

  /** An event that ends a run takes this run away and no other, whatever it carries. */
  lemma EndTakesRun(runs: Runs, e: EventDraft, id: string)
    requires Ends(e, id)
    ensures ApplyEvent(runs, e).Ok?
    ensures var after := ApplyEvent(runs, e).value;
            && id !in after
            && forall other :: other != id ==>
                 (other in after <==> other in runs) && (other in after ==> after[other] == runs[other])
  {
  }

  /** An event with a full state replaces this run by what the parser makes of it. */
  lemma StateReplacesRun(runs: Runs, e: EventDraft, id: string)
    requires Brings(e, id) && e.delta.None?
    ensures ApplyEvent(runs, e).Ok? <==> ParseDemoRun(e.run.value).Ok?
    ensures ApplyEvent(runs, e).Ok? ==>
              ApplyEvent(runs, e).value == runs[id := ParseDemoRun(e.run.value).value]
  {
    hide ParseDemoRun;
  }

  /** An event with a delta needs its run, under its own name; it leads to what the parser makes of
      the changed state, which stays a state of this run and this thread. */
  lemma DeltaChangesRun(runs: Runs, e: EventDraft, id: string)
    requires Concerns(e, id) && !Ends(e, id) && e.delta.Some? && ApplyEvent(runs, e).Ok?
    ensures id in runs && StringAt(runs[id], "runId") == Some(id) && ParseDemoRun(SerializeDemoRun(runs[id])).Ok?
    ensures var changed := ApplyDelta(NormalForm(SerializeDemoRun(runs[id])), e.delta.value);
            && changed.Ok? && ParseDemoRun(changed.value).Ok?
            && ApplyEvent(runs, e).value == runs[id := ParseDemoRun(changed.value).value]
            && StringAt(ParseDemoRun(changed.value).value, "runId") == Some(id)
            && StringAt(ParseDemoRun(changed.value).value, "threadId") == StringAt(runs[id], "threadId")
  {
    hide ParseDemoRun, SerializeDemoRun, ApplyDelta;
  }

  /** Without its run, or with a run of another name, a delta is refused. */
  lemma DeltaNeedsRun(runs: Runs, e: EventDraft, id: string)
    requires Concerns(e, id) && !Ends(e, id) && e.delta.Some?
    ensures id !in runs ==> ApplyEvent(runs, e) == Err(BaseMissing)
    ensures id in runs && StringAt(runs[id], "runId") != Some(id) ==> ApplyEvent(runs, e) == Err(WrongIdentity)
  {
    hide ParseDemoRun, SerializeDemoRun, ApplyDelta;
  }

  /** Any other event without a delta leaves the runs alone. */
  lemma OtherEventKeepsRuns(runs: Runs, e: EventDraft)
    requires e.delta.None? && (e.runId.None? || (!Ends(e, e.runId.value) && !Brings(e, e.runId.value)))
    ensures ApplyEvent(runs, e) == Ok(runs)
  {
    hide ParseDemoRun;
  }

  /** One event, seen by any run. */
  lemma EventOnRun(runs: Runs, e: EventDraft, id: string)
    requires e.delta.None? && ApplyEvent(runs, e).Ok?
    ensures var after := ApplyEvent(runs, e).value;
            && (Ends(e, id) ==> id !in after)
            && (Brings(e, id) ==> ParseDemoRun(e.run.value).Ok? && id in after
                                  && after[id] == ParseDemoRun(e.run.value).value)
            && (!Ends(e, id) && !Brings(e, id) ==>
                  (id in after <==> id in runs) && (id in after ==> after[id] == runs[id]))
  {
    hide ApplyEvent, ParseDemoRun;
    if e.runId.None? {
      OtherEventKeepsRuns(runs, e);
    } else {
      var own := e.runId.value;
      if Ends(e, own) {
        EndTakesRun(runs, e, own);
      } else if Brings(e, own) {
        StateReplacesRun(runs, e, own);
      } else {
        OtherEventKeepsRuns(runs, e);
      }
    }
  }

  /** The last event of the log that ends the run or brings a state of it is the `k`-th, and
      brings a state. */
  ghost predicate LastBrings(events: seq<EventDraft>, id: string, k: nat) {
    && k < |events| && Brings(events[k], id)
    && forall j :: k < j < |events| ==> !Ends(events[j], id) && !Brings(events[j], id)
  }

  ghost predicate Untouched(events: seq<EventDraft>, id: string) {
    forall j :: 0 <= j < |events| ==> !Ends(events[j], id) && !Brings(events[j], id)
  }

  /** The run is there after the log. */
  ghost predicate Alive(start: Runs, events: seq<EventDraft>, id: string) {
    (exists k: nat :: LastBrings(events, id, k)) || (id in start && Untouched(events, id))
  }

  lemma AliveLonger(start: Runs, events: seq<EventDraft>, e: EventDraft, id: string)
    ensures Ends(e, id) ==> !Alive(start, events + [e], id)
    ensures Brings(e, id) ==> LastBrings(events + [e], id, |events|) && Alive(start, events + [e], id)
    ensures !Ends(e, id) && !Brings(e, id) ==>
              && (Alive(start, events + [e], id) <==> Alive(start, events, id))
              && (Untouched(events + [e], id) <==> Untouched(events, id))
              && forall k: nat :: LastBrings(events + [e], id, k) <==> LastBrings(events, id, k)
  {
    hide Ends, Brings;
    var longer := events + [e];
    assert longer[|events|] == e && longer[..|events|] == events;
    if Ends(e, id) || Brings(e, id) {
      assert !Untouched(longer, id);
    } else {
      UntouchedLonger(events, e, id);
      forall k: nat ensures LastBrings(longer, id, k) <==> LastBrings(events, id, k) {
        LastBringsLonger(events, e, id, k);
      }
    }
    if Ends(e, id) { EndsNotBrings(e, id); }
  }

  lemma EndsNotBrings(e: EventDraft, id: string)
    requires Ends(e, id)
    ensures !Brings(e, id)
  {
  }

  lemma UntouchedLonger(events: seq<EventDraft>, e: EventDraft, id: string)
    requires !Ends(e, id) && !Brings(e, id)
    ensures Untouched(events + [e], id) <==> Untouched(events, id)
  {
    hide Ends, Brings;
    var longer := events + [e];
    if Untouched(longer, id) {
      forall j | 0 <= j < |events| ensures !Ends(events[j], id) && !Brings(events[j], id) {
        assert longer[j] == events[j];
      }
    }
  }

  lemma LastBringsLonger(events: seq<EventDraft>, e: EventDraft, id: string, k: nat)
    requires !Ends(e, id) && !Brings(e, id)
    ensures LastBrings(events + [e], id, k) <==> LastBrings(events, id, k)
  {
    hide Ends, Brings;
    var longer := events + [e];
    assert longer[|events|] == e;
    if LastBrings(longer, id, k) {
      forall j | k < j < |events| ensures !Ends(events[j], id) && !Brings(events[j], id) {
        assert longer[j] == events[j];
      }
    }
  }

  lemma {:induction false} ReplayLonger(runs: Runs, events: seq<EventDraft>, e: EventDraft)
    ensures Replay(runs, events + [e]) ==
            (match Replay(runs, events) case Ok(r) => ApplyEvent(r, e) case Err(x) => Err(x))
  {
    hide ApplyEvent;
    ReplayConcat(runs, events, [e]);
    match Replay(runs, events)
    case Ok(r) =>
      assert [e][1..] == [];
      if ApplyEvent(r, e).Ok? { assert Replay(ApplyEvent(r, e).value, []) == Ok(ApplyEvent(r, e).value); }
    case Err(_) =>
  }

  /** A run is among the replayed ones exactly when the last event that ends it or brings a
      state of it brings a state, or when there is no such event and it was there at the start;
      and then it is that state. */
  lemma {:induction false} AliveExactly(start: Runs, events: seq<EventDraft>, id: string)
    requires forall i :: 0 <= i < |events| ==> events[i].delta.None?
    requires Replay(start, events).Ok?
    ensures var after := Replay(start, events).value;
            && (id in after <==> Alive(start, events, id))
            && (forall k: nat :: LastBrings(events, id, k) ==>
                  ParseDemoRun(events[k].run.value).Ok? && id in after
                  && after[id] == ParseDemoRun(events[k].run.value).value)
            && (id in start && Untouched(events, id) ==> id in after && after[id] == start[id])
    decreases |events|
  {
    hide ApplyEvent, ParseDemoRun, Ends, Brings;
    if events != [] {
      var front, e := events[..|events| - 1], events[|events| - 1];
      assert events == front + [e];
      ReplayLonger(start, front, e);
      AliveExactly(start, front, id);
      EventOnRun(Replay(start, front).value, e, id);
      AliveLonger(start, front, e, id);
      hide Replay, Alive;
      if Ends(e, id) || Brings(e, id) { LastIsUnique(front, e, id); }
    }
  }

  lemma LastIsUnique(front: seq<EventDraft>, e: EventDraft, id: string)
    requires Brings(e, id) || Ends(e, id)
    ensures forall k: nat :: LastBrings(front + [e], id, k) ==> k == |front| && Brings(e, id)
    ensures !Untouched(front + [e], id)
  {
    hide Brings, Ends;
    assert (front + [e])[|front|] == e;
  }

  // ------------------------------------------------------ the log of the journal

  /** Over every run of the journal: what the compacted log since the last checkpoint replays
      to are exactly the runs that are alive by the events as they were given, each in the
      normal form of its last state. A baseline is kept of none but these, and holds that
      state. */
  lemma JournalHoldsLastStates(bytes: Payload -> nat, worlds: seq<World>, actions: seq<Action>, id: string)
    requires IsRun(bytes, worlds, actions)
    requires var d := worlds[|actions|].durable; Replay(d.start, d.original).Ok?
    ensures var d := worlds[|actions|].durable;
            var found := Replay(d.start, d.compacted);
            && found.Ok?
            && (id in found.value <==> Alive(d.start, d.original, id))
            && (id in d.baselines && id != "" ==> Alive(d.start, d.original, id))
            && (forall k: nat :: LastBrings(d.original, id, k) ==>
                  ParseDemoRun(d.original[k].run.value).Ok?
                  && SerializeDemoRun(found.value[id]) == NormalForm(d.original[k].run.value)
                  && (id in d.baselines && id != "" ==>
                        d.baselines[id].value == NormalForm(d.original[k].run.value)))
            && (id in d.start && Untouched(d.original, id) ==>
                  SerializeDemoRun(found.value[id]) == SerializeDemoRun(d.start[id]))
  {
    hide Replay, Next, Initial, Alive, LastBrings, Untouched, ParseDemoRun, SerializeDemoRun;
    InvariantOnRuns(bytes, worlds, actions);
    ReplayEquivalence(bytes, worlds, actions);
    var d := worlds[|actions|].durable;
    assert Faithful(d);
    AliveExactly(d.start, d.original, id);
    NothingForEmpty(d.original);
  }

  lemma NothingForEmpty(events: seq<EventDraft>)
    ensures forall k: nat :: !LastBrings(events, "", k)
  {
  }
}
