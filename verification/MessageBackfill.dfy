/** The resumable projection of events into the message table, message-store-backfill.ts. */
module MessageBackfill {
  import opened Json
  import opened Results
  import opened Ordering
  import opened MessageStore

  datatype Event = Event(sequence: int, id: string, kind: string, payload: Json, messageId: string, runId: string,
                         occurredAt: string)

  /** What the projection takes from elsewhere: the table's checks, and the text of a
      paused run's message. */
  datatype Rules = Rules(validity: Validity, pauseText: Json -> string)

  datatype Verdict = Written | Updated | Skipped

  const SPACES := {' ', '\t', '\n', '\r', '\U{000B}', '\U{000C}', '\U{00A0}', '\U{1680}', '\U{2000}', '\U{2001}',
                   '\U{2002}', '\U{2003}', '\U{2004}', '\U{2005}', '\U{2006}', '\U{2007}', '\U{2008}', '\U{2009}',
                   '\U{200A}', '\U{2028}', '\U{2029}', '\U{202F}', '\U{205F}', '\U{3000}', '\U{FEFF}'}

  /** Empty once trimmed. */
  predicate Blank(s: string) {
    forall c :: c in s ==> c in SPACES
  }

  function FirstOf(a: string, b: string): string {
    if a != "" then a else b
  }

  // ------------------------------------------------------------------- one event

  /** `writeMessage`: a message that is there already, or that the table refuses, is
      skipped. */
  function Write(rules: Rules, s: Store, m: Message): (Store, Verdict) {
    if Find(s.rows, m.id).Some? then (s, Skipped)
    else
      match Create(rules.validity, s, m)
      case Some(next) => (next, Written)
      case None => (s, Skipped)
  }

  /** The message an event asks for, its sequence aside. */
  function Wanted(rules: Rules, e: Event): Option<Message> {
    var threadId := StringField(e.payload, "threadId");
    var runId := FirstOf(e.runId, StringField(e.payload, "idempotencyKey"));
    var modelId := StringField(e.payload, "modelId");
    var model := if modelId != "" then Some(modelId) else None;
    if e.kind == "message.appended" then
      var role, text := StringField(e.payload, "role"), StringField(e.payload, "text");
      var id := FirstOf(StringField(e.payload, "messageId"), e.messageId);
      if Compact(e.payload) || threadId == "" || id == "" || role !in {"user", "assistant", "system", "tool"} then None
      else if role != "user" && Blank(text) then None
      else Some(Message(id, threadId, role, 0, [Block("text", text, Null)], e.occurredAt, None, None))
    else if !Blank(StringField(e.payload, "delegationParentRunId")) || threadId == "" || runId == "" then None
    else if e.kind == "run.completed" then
      var text := StringField(e.payload, "assistantText");
      if Blank(text) then None
      else
        Some(Message("asst-" + runId, threadId, "assistant", 0, [Block("text", text, Null)], e.occurredAt,
                     Some(runId), model))
    else
      var error := Obj(map["terminalState" := Str("failed"), "errorMessage" := Str(rules.pauseText(e.payload)),
                           "legacyBackfill" := Bool(true)]);
      Some(Message("asst-" + runId, threadId, "assistant", 0, [Block("error", "", error)], e.occurredAt,
                   Some(runId), model))
  }

  predicate Compact(payload: Json) {
    payload.Obj? && "compact" in payload.fields && payload.fields["compact"] == Bool(true)
  }

  predicate Writes(e: Event) {
    e.kind == "message.appended" || e.kind == "run.completed" || e.kind == "run.paused"
  }

  /** The turn of the loop for one event. */
  function Project(rules: Rules, s: Store, e: Event): (Store, Verdict) {
    if Writes(e) then
      match Wanted(rules, e)
      case None => (s, Skipped)
      case Some(m) => Write(rules, s, m.(sequence := NextSequence(s.rows, m.threadId)))
    else if e.kind == "message.images-attached" then
      Attach(rules, s, FirstOf(StringField(e.payload, "messageId"), e.messageId), ImagesAttached(e.payload))
    else (s, Skipped)
  }

  function ImagesAttached(payload: Json): (images: seq<Image>)
    ensures forall image :: image in images ==> image.storageRef != ""
  {
    if payload.Obj? && "images" in payload.fields then ParseImageRefs(payload.fields["images"]) else []
  }

  function Attach(rules: Rules, s: Store, id: string, images: seq<Image>): (Store, Verdict) {
    if id == "" || images == [] then (s, Skipped)
    else
      match Find(s.rows, id)
      case None => (s, Skipped)
      case Some(existing) =>
        var blocks := Merged(existing.blocks, images);
        if blocks == existing.blocks then (s, Skipped)
        else
          match Update(rules.validity, s, id, blocks)
          case Some(next) => (next, Updated)
          case None => (s, Skipped)
  }

  // ------------------------------------------------------------------- all events

  datatype Tally = Tally(store: Store, written: nat, updated: nat, skipped: nat)

  function Count(t: Tally, r: (Store, Verdict)): Tally {
    match r.1
    case Written => t.(store := r.0, written := t.written + 1)
    case Updated => t.(store := r.0, updated := t.updated + 1)
    case Skipped => t.(store := r.0, skipped := t.skipped + 1)
  }

  function Fold(rules: Rules, s: Store, events: seq<Event>): Tally {
    if events == [] then Tally(s, 0, 0, 0)
    else
      var t := Fold(rules, s, events[..|events| - 1]);
      Count(t, Project(rules, t.store, events[|events| - 1]))
  }

  lemma {:induction false} FoldConcat(rules: Rules, s: Store, a: seq<Event>, b: seq<Event>)
    ensures var t, u := Fold(rules, s, a), Fold(rules, Fold(rules, s, a).store, b);
            Fold(rules, s, a + b) ==
            Tally(u.store, t.written + u.written, t.updated + u.updated, t.skipped + u.skipped)
    decreases |b|
  {
    if b == [] {
      assert a + b == a;
    } else {
      assert (a + b)[..|a + b| - 1] == a + b[..|b| - 1];
      FoldConcat(rules, s, a, b[..|b| - 1]);
      hide Project;
    }
  }

  lemma {:induction false} FoldCountsAll(rules: Rules, s: Store, events: seq<Event>)
    ensures var t := Fold(rules, s, events); t.written + t.updated + t.skipped == |events|
  {
    if events != [] {
      FoldCountsAll(rules, s, events[..|events| - 1]);
      hide Project;
    }
  }

  // ------------------------------------------------------------------- the cursor

  /** Exclusive; without an id nothing at its sequence is taken. */
  datatype Cursor = Cursor(sequence: nat, id: Option<string>)

  predicate After(c: Cursor, e: Event) {
    e.sequence > c.sequence || (c.id.Some? && e.sequence == c.sequence && !StringLeq(e.id, c.id.value))
  }

  function AfterCursor(c: Cursor): Event -> bool {
    e => After(c, e)
  }

  predicate EventLeq(a: Event, b: Event) {
    a.sequence < b.sequence || (a.sequence == b.sequence && StringLeq(a.id, b.id))
  }

  function Selected(events: seq<Event>, c: Cursor): seq<Event> {
    SortBy(EventLeq, Filter(AfterCursor(c), events))
  }

  function CursorAfter(c: Cursor, ordered: seq<Event>): Cursor {
    if ordered == [] then c
    else
      var last := ordered[|ordered| - 1];
      Cursor(if last.sequence > c.sequence then last.sequence else c.sequence, Some(last.id))
  }

  datatype Progress = Progress(from: Cursor, to: Cursor, processed: nat, written: nat, updated: nat, skipped: nat)

  function Backfill(rules: Rules, s: Store, events: seq<Event>, c: Cursor): (Store, Progress) {
    var ordered := Selected(events, c);
    var t := Fold(rules, s, ordered);
    (t.store, Progress(c, CursorAfter(c, ordered), |ordered|, t.written, t.updated, t.skipped))
  }

  method BackfillMessagesFromEvents(rules: Rules, s: Store, events: seq<Event>, afterSequence: Option<int>,
                                    afterEventId: Option<string>)
      returns (store: Store, progress: Progress)
    ensures var c := Cursor(if afterSequence.GetOr(0) > 0 then afterSequence.value else 0, afterEventId);
            (store, progress) == Backfill(rules, s, events, c)
    ensures progress.processed == progress.written + progress.updated + progress.skipped
  {
    hide After, EventLeq;
    var from := if afterSequence.GetOr(0) > 0 then afterSequence.value else 0;
    var c := Cursor(from, afterEventId);
    var ordered := SortBy(EventLeq, Filter(AfterCursor(c), events));
    SelectedFacts(events, c);
    FoldCountsAll(rules, s, ordered);
    hide Project, Filter, SortBy, Fold;
    var t, to := ProjectAll(rules, s, ordered, c);
    store := t.store;
    var lastId := if ordered != [] then Some(ordered[|ordered| - 1].id) else afterEventId;
    progress := Progress(c, Cursor(to, lastId), |ordered|, t.written, t.updated, t.skipped);
  }

  /** The loop over the ordered events. */
  method ProjectAll(rules: Rules, s: Store, ordered: seq<Event>, c: Cursor) returns (t: Tally, to: nat)
    requires SortedBy(EventLeq, ordered)
    ensures t == Fold(rules, s, ordered) && to == CursorAfter(c, ordered).sequence
  {
    hide Project;
    t, to := Tally(s, 0, 0, 0), c.sequence;
    assert ordered[..0] == [];
    for i := 0 to |ordered|
      invariant t == Fold(rules, s, ordered[..i]) && to == CursorAfter(c, ordered[..i]).sequence
    {
      assert ordered[..i + 1][..i] == ordered[..i];
      assert i > 0 ==> EventLeq(ordered[i - 1], ordered[i]);
      to := if ordered[i].sequence > to then ordered[i].sequence else to;
      t := Count(t, Project(rules, t.store, ordered[i]));
    }
    assert ordered[..|ordered|] == ordered;
  }

  // -------------------------------------------------------------- resumability

  lemma EventOrderIsTotal()
    ensures TotalPreorder(EventLeq)
  {
    forall x, y ensures EventLeq(x, y) || EventLeq(y, x) {
      StringLeqTotal(x.id, y.id);
    }
    forall x, y, z | EventLeq(x, y) && EventLeq(y, z) ensures EventLeq(x, z) {
      if x.sequence == y.sequence == z.sequence { StringLeqTransitive(x.id, y.id, z.id); }
    }
  }

  lemma SelectedFacts(events: seq<Event>, c: Cursor)
    ensures SortedBy(EventLeq, Selected(events, c))
    ensures forall e :: e in Selected(events, c) <==> e in events && After(c, e)
  {
    var kept := Filter(AfterCursor(c), events);
    EventOrderIsTotal();
    FilterSound(AfterCursor(c), events);
    SortSorts(EventLeq, kept);
    SortPermutes(EventLeq, kept);
    hide Filter, SortBy, EventLeq, SortedBy, TotalPreorder;
    var sorted := Selected(events, c);
    forall e ensures e in sorted <==> e in kept {
      assert e in multiset(sorted) <==> e in multiset(kept);
    }
  }

  /** A sort works separately on two parts of which one is below the other. */
  lemma {:induction false} SortConcat(a: seq<Event>, b: seq<Event>)
    requires forall x, y :: x in a && y in b ==> EventLeq(x, y)
    ensures SortBy(EventLeq, a + b) == SortBy(EventLeq, a) + SortBy(EventLeq, b)
    decreases |b|
  {
    if b == [] {
      assert a + b == a;
    } else {
      var front, last := b[..|b| - 1], b[|b| - 1];
      assert (a + b)[..|a + b| - 1] == a + front;
      SortConcat(a, front);
      SortPermutes(EventLeq, a);
      forall x | x in SortBy(EventLeq, a) ensures EventLeq(x, last) {
        assert x in multiset(SortBy(EventLeq, a));
      }
      InsertAbove(SortBy(EventLeq, a), SortBy(EventLeq, front), last);
    }
  }

  lemma {:induction false} InsertAbove(a: seq<Event>, b: seq<Event>, x: Event)
    requires forall y :: y in a ==> EventLeq(y, x)
    ensures Insert(EventLeq, a + b, x) == a + Insert(EventLeq, b, x)
    decreases |b|
  {
    if b == [] {
      assert a + b == a;
    } else {
      assert (a + b)[..|a + b| - 1] == a + b[..|b| - 1];
      InsertAbove(a, b[..|b| - 1], x);
    }
  }

  /** The log is cut anywhere in its (sequence, id) order, perhaps between two events of one
      sequence. */
  ghost predicate Cut(early: seq<Event>, late: seq<Event>) {
    forall x, y :: x in early && y in late ==> EventLeq(x, y) && !EventLeq(y, x)
  }

  /** After a part of the log, the cursor selects exactly the rest. */
  lemma CursorSelectsRest(early: seq<Event>, late: seq<Event>, c: Cursor)
    requires Cut(early, late)
    ensures var first := Selected(early, c);
            && Selected(early + late, c) == first + Selected(late, c)
            && Selected(early + late, CursorAfter(c, first)) == Selected(late, c)
  {
    var first := Selected(early, c);
    var next := CursorAfter(c, first);
    SelectedFacts(early, c);
    forall e | e in early && first != [] ensures !After(next, e) {
      EarlyPast(early, c, e);
    }
    forall e | e in late ensures first != [] ==> After(next, e) && After(c, e) {
      if first != [] {
        assert first[|first| - 1] in first;
        LateAhead(first[|first| - 1], e, c);
      }
    }
    if first == [] { assert next == c; }
    SelectSplit(early, late, c);
    if first != [] {
      SelectOnly(early, late, next);
      SelectAll(late, c);
    }
  }

  lemma EarlyPast(early: seq<Event>, c: Cursor, e: Event)
    requires e in early && Selected(early, c) != []
    ensures !After(CursorAfter(c, Selected(early, c)), e)
  {
    SelectedFacts(early, c);
    var first := Selected(early, c);
    var last := first[|first| - 1];
    assert last in first;
    if After(c, e) {
      SortedLast(EventLeq, first, e);
      StringLeqTotal(e.id, e.id);
    } else if c.id.Some? && e.sequence == last.sequence == c.sequence {
      StringLeqTotal(last.id, c.id.value);
      StringLeqTransitive(e.id, c.id.value, last.id);
    }
  }

  lemma LateAhead(last: Event, e: Event, c: Cursor)
    requires EventLeq(last, e) && !EventLeq(e, last) && After(c, last)
    ensures After(Cursor(last.sequence, Some(last.id)), e) && After(c, e)
  {
    if c.id.Some? && e.sequence == last.sequence == c.sequence && StringLeq(e.id, c.id.value) {
      StringLeqTotal(last.id, c.id.value);
      StringLeqTransitive(e.id, c.id.value, last.id);
      assert false;
    }
  }

  lemma SelectSplit(early: seq<Event>, late: seq<Event>, c: Cursor)
    requires Cut(early, late)
    ensures Selected(early + late, c) == Selected(early, c) + Selected(late, c)
  {
    FilterConcat(AfterCursor(c), early, late);
    FilterSound(AfterCursor(c), early);
    FilterSound(AfterCursor(c), late);
    SortConcat(Filter(AfterCursor(c), early), Filter(AfterCursor(c), late));
  }

  /** A cursor past the early events and before the late ones. */
  lemma SelectOnly(early: seq<Event>, late: seq<Event>, c: Cursor)
    requires (forall e :: e in early ==> !After(c, e)) && (forall e :: e in late ==> After(c, e))
    ensures Selected(early + late, c) == SortBy(EventLeq, late)
  {
    FilterConcat(AfterCursor(c), early, late);
    FilterNone(AfterCursor(c), early);
    FilterAll(AfterCursor(c), late);
    assert Filter(AfterCursor(c), early + late) == late;
  }

  lemma SelectAll(late: seq<Event>, c: Cursor)
    requires forall e :: e in late ==> After(c, e)
    ensures Selected(late, c) == SortBy(EventLeq, late)
  {
    FilterAll(AfterCursor(c), late);
  }

  /** Projecting a part of the log and then continuing from the returned cursor is the same
      as one pass: the same messages, the same final cursor, and counts that add up. */
  lemma Resumes(rules: Rules, s: Store, early: seq<Event>, late: seq<Event>, c: Cursor)
    requires Cut(early, late)
    ensures var (half, first) := Backfill(rules, s, early, c);
            var (rest, second) := Backfill(rules, half, early + late, first.to);
            var (whole, once) := Backfill(rules, s, early + late, c);
            && rest == whole && second.to == once.to
            && once.processed == first.processed + second.processed
            && once.written == first.written + second.written
            && once.updated == first.updated + second.updated
            && once.skipped == first.skipped + second.skipped
  {
    var first := Selected(early, c);
    var rest := Selected(late, c);
    CursorSelectsRest(early, late, c);
    FoldConcat(rules, s, first, rest);
    SelectedFacts(early + late, c);
    SelectedFacts(early + late, CursorAfter(c, first));
    hide Fold, Selected, SortedBy, Cut;
    if rest != [] {
      assert rest[|rest| - 1] in rest;
      assert (first + rest)[|first + rest| - 1] == rest[|rest| - 1];
      assert rest[|rest| - 1] in first + rest;
    } else {
      assert first + rest == first;
    }
  }

  // ---------------------------------------------------- what a pass does to the table

  /** Nothing is left to write for this event: its message is there, or never will be. */
  ghost predicate Done(rules: Rules, s: Store, e: Event) {
    Writes(e) && Wanted(rules, e).Some? ==>
      var m := Wanted(rules, e).value;
      Find(s.rows, m.id).Some? || !rules.validity.message(m) || m.threadId !in s.threads
  }

  /** Messages stay, and so do threads. */
  ghost predicate Grown(s: Store, t: Store) {
    s.threads == t.threads && forall id :: Find(s.rows, id).Some? ==> Find(t.rows, id).Some?
  }

  lemma WantedHasNoSequence(rules: Rules, e: Event)
    ensures Wanted(rules, e).Some? ==> Wanted(rules, e).value.sequence == 0
  {
  }

  /** An event is written exactly when something is left to write, and then it is done. */
  lemma WrittenExactly(rules: Rules, s: Store, e: Event)
    ensures Project(rules, s, e).1.Written? <==> !Done(rules, s, e)
    ensures Done(rules, Project(rules, s, e).0, e)
  {
    WantedHasNoSequence(rules, e);
    hide Wanted, Merged, Update, ImagesAttached, StringField;
    if Writes(e) && Wanted(rules, e).Some? {
      var wanted := Wanted(rules, e).value;
      var m := wanted.(sequence := NextSequence(s.rows, wanted.threadId));
      assert m.(sequence := 0) == wanted;
      assert m in s.rows + [m];
    }
  }

  lemma ProjectGrows(rules: Rules, s: Store, e: Event)
    ensures Grown(s, Project(rules, s, e).0)
  {
    var t := Project(rules, s, e).0;
    if t.rows == s.rows {
    } else if Writes(e) {
      WantedHasNoSequence(rules, e);
      forall id | Find(s.rows, id).Some? ensures Find(t.rows, id).Some? {
        var m := Find(s.rows, id).value;
        assert m in t.rows;
      }
    } else {
      var id := FirstOf(StringField(e.payload, "messageId"), e.messageId);
      var blocks := Merged(Find(s.rows, id).value.blocks, ImagesAttached(e.payload));
      UpdateGrows(s.rows, id, blocks);
    }
  }

  lemma UpdateGrows(rows: seq<Message>, id: string, blocks: seq<Block>)
    ensures forall other :: Find(rows, other).Some? ==> Find(WithBlocks(rows, id, blocks), other).Some?
  {
    WithBlocksKeeps(rows, id, blocks);
    forall other | Find(rows, other).Some? ensures Find(WithBlocks(rows, id, blocks), other).Some? {
      var m := Find(rows, other).value;
      var i :| 0 <= i < |rows| && rows[i] == m;
      assert WithBlocks(rows, id, blocks)[i].id == other;
    }
  }

  lemma {:induction false} FoldDone(rules: Rules, s: Store, events: seq<Event>)
    ensures Grown(s, Fold(rules, s, events).store)
    ensures forall e :: e in events ==> Done(rules, Fold(rules, s, events).store, e)
  {
    if events != [] {
      var front, last := events[..|events| - 1], events[|events| - 1];
      var t := Fold(rules, s, front).store;
      assert events == front + [last];
      hide *;
      FoldLast(rules, s, events);
      FoldDone(rules, s, front);
      ProjectDone(rules, s, t, front, last);
    }
  }

  lemma FoldLast(rules: Rules, s: Store, events: seq<Event>)
    requires events != []
    ensures var before := Fold(rules, s, events[..|events| - 1]).store;
            Fold(rules, s, events).store == Project(rules, before, events[|events| - 1]).0
  {
    hide Project;
  }

  lemma ProjectDone(rules: Rules, s: Store, t: Store, front: seq<Event>, last: Event)
    requires Grown(s, t) && forall e :: e in front ==> Done(rules, t, e)
    ensures var next := Project(rules, t, last).0;
            Grown(s, next) && forall e :: e in front + [last] ==> Done(rules, next, e)
  {
    var next := Project(rules, t, last).0;
    ProjectGrows(rules, t, last);
    WrittenExactly(rules, t, last);
    GrownTwice(s, t, next);
    hide *;
    forall e | e in front ensures Done(rules, next, e) {
      DoneStays(rules, t, next, e);
    }
  }

  lemma DoneStays(rules: Rules, s: Store, t: Store, e: Event)
    requires Done(rules, s, e) && Grown(s, t)
    ensures Done(rules, t, e)
  {
    hide Find, Wanted, Writes;
  }

  lemma GrownTwice(s: Store, t: Store, u: Store)
    requires Grown(s, t) && Grown(t, u)
    ensures Grown(s, u)
  {
    hide Find;
  }

  lemma {:induction false} NothingToWrite(rules: Rules, s: Store, events: seq<Event>)
    requires forall e :: e in events ==> Done(rules, s, e)
    ensures Fold(rules, s, events).written == 0
  {
    if events != [] {
      var front, last := events[..|events| - 1], events[|events| - 1];
      assert events == front + [last];
      NothingToWrite(rules, s, front);
      FoldDone(rules, s, front);
      DoneStays(rules, s, Fold(rules, s, front).store, last);
      WrittenExactly(rules, Fold(rules, s, front).store, last);
      hide Project, Find, Wanted, Writes, Done, Grown;
    }
  }

  /** Projecting the same events again writes no message. */
  lemma RerunWritesNothing(rules: Rules, s: Store, events: seq<Event>, c: Cursor)
    ensures Backfill(rules, Backfill(rules, s, events, c).0, events, c).1.written == 0
  {
    FoldDone(rules, s, Selected(events, c));
    NothingToWrite(rules, Backfill(rules, s, events, c).0, Selected(events, c));
  }

  /** Ids are unique, and so are sequences within a thread. */
  ghost predicate Numbered(rows: seq<Message>) {
    && (forall m :: m in rows ==> m.sequence >= 0)
    && (forall i, j :: 0 <= i < j < |rows| ==>
          rows[i].id != rows[j].id && !(rows[i].threadId == rows[j].threadId && rows[i].sequence == rows[j].sequence))
  }

  /** Messages have been appended, and blocks changed. */
  ghost predicate Extends(rows: seq<Message>, later: seq<Message>) {
    |rows| <= |later| && forall i :: 0 <= i < |rows| ==> later[i] == rows[i].(blocks := later[i].blocks)
  }

  lemma ExtendsTwice(a: seq<Message>, b: seq<Message>, c: seq<Message>)
    requires Extends(a, b) && Extends(b, c)
    ensures Extends(a, c)
  {
  }

  lemma ProjectKeepsNumbered(rules: Rules, s: Store, e: Event)
    requires Numbered(s.rows)
    ensures Numbered(Project(rules, s, e).0.rows)
    ensures Extends(s.rows, Project(rules, s, e).0.rows)
  {
    var t := Project(rules, s, e).0;
    hide Numbered;
    if t.rows == s.rows {
    } else if Writes(e) {
      hide Wanted;
      var m := t.rows[|t.rows| - 1];
      assert t.rows == s.rows + [m];
      AppendKeepsNumbered(s.rows, m);
    } else {
      var id := FirstOf(StringField(e.payload, "messageId"), e.messageId);
      var blocks := Merged(Find(s.rows, id).value.blocks, ImagesAttached(e.payload));
      assert t.rows == WithBlocks(s.rows, id, blocks);
      hide *;
      UpdateKeepsNumbered(s.rows, id, blocks);
      WithBlocksKeeps(s.rows, id, blocks);
    }
  }

  lemma AppendKeepsNumbered(rows: seq<Message>, m: Message)
    requires Numbered(rows) && m.sequence >= 0 && Find(rows, m.id).None?
    requires forall other :: other in rows ==> !(other.threadId == m.threadId && other.sequence == m.sequence)
    ensures Numbered(rows + [m])
  {
    hide Find;
  }

  lemma UpdateKeepsNumbered(rows: seq<Message>, id: string, blocks: seq<Block>)
    requires Numbered(rows)
    ensures Numbered(WithBlocks(rows, id, blocks))
  {
    WithBlocksKeeps(rows, id, blocks);
    hide WithBlocks;
    var r := WithBlocks(rows, id, blocks);
    forall m | m in r ensures m.sequence >= 0 {
      var i :| 0 <= i < |r| && r[i] == m;
      assert rows[i] in rows;
    }
  }

  /** A pass only appends messages and changes blocks, and numbers each thread uniquely. */
  lemma {:induction false} FoldKeepsNumbered(rules: Rules, s: Store, events: seq<Event>)
    requires Numbered(s.rows)
    ensures var rows := Fold(rules, s, events).store.rows;
            Numbered(rows) && Extends(s.rows, rows)
  {
    hide Project, Numbered;
    if events != [] {
      hide Extends;
      var front := Fold(rules, s, events[..|events| - 1]).store;
      FoldLast(rules, s, events);
      FoldKeepsNumbered(rules, s, events[..|events| - 1]);
      ProjectKeepsNumbered(rules, front, events[|events| - 1]);
      ExtendsTwice(s.rows, front.rows, Fold(rules, s, events).store.rows);
    }
  }
}
