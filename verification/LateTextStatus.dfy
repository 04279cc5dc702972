/** Whether a text that was put before other segments ever ends: only the tail of a timeline
    is closed, and only a sort can make this text the tail. */
module LateTextStatus {
  import opened Results
  import opened Ordering
  import opened TimelineBound
  import opened AssistantTimeline
  import opened TimelineRows
  import opened LateText

  /** The text with this identifier is still streaming. */
  predicate HangsAt(t: Timeline, i: nat, id: string)
    requires i < |t|
  {
    t[i].id == id && t[i].body.Text? && StreamingProse(t[i])
  }

  /** It streams before the tail, where nothing closes it. */
  ghost predicate Hangs(t: Timeline, id: string) {
    exists i :: 0 <= i < |t| - 1 && HangsAt(t, i, id)
  }

  function Tail(t: Timeline): int
    requires t != []
  {
    t[|t| - 1].sequence
  }

  /** The tail has the greatest sequence but for this text, which is not further above it
      than the rows for which there is still room. */
  ghost predicate HeldAt(t: Timeline, p: nat, id: string)
    requires p < |t|
  {
    && p < |t| - 1 && HangsAt(t, p, id)
    && |Rows(t)| <= MAX_SEGMENTS && t[p].sequence + |Rows(t)| <= Tail(t) + MAX_SEGMENTS
    && forall k :: 0 <= k < |t| && k != p ==> t[k].sequence <= Tail(t)
  }

  ghost predicate Held(t: Timeline, id: string) {
    exists p :: 0 <= p < |t| && HeldAt(t, p, id)
  }

  // ----------------------------------------------------- what changes bodies only

  lemma {:induction false} SameRowCount(t: Timeline, r: Timeline)
    requires |t| == |r| && forall k :: 0 <= k < |t| ==> Protected(t[k]) == Protected(r[k])
    ensures |Rows(t)| == |Rows(r)|
    decreases |t|
  {
    hide Rows, Protected;
    if t == [] {
      assert t == r;
    } else {
      SplitLast(t);
      SplitLast(r);
      SameRowCount(t[..|t| - 1], r[..|t| - 1]);
      Snoc(t[..|t| - 1], t[|t| - 1]);
      Snoc(r[..|t| - 1], r[|t| - 1]);
    }
  }

  /** Same sequences and same kinds. */
  ghost predicate SameOutline(t: Timeline, r: Timeline) {
    |t| == |r| && forall k :: 0 <= k < |t| ==> r[k].sequence == t[k].sequence && Protected(t[k]) == Protected(r[k])
  }

  lemma HeldInOther(t: Timeline, r: Timeline, p: nat, id: string)
    requires p < |t| && HeldAt(t, p, id) && SameOutline(t, r) && HangsAt(r, p, id)
    ensures HeldAt(r, p, id)
  {
    SameRowCount(t, r);
    hide Rows, Protected, HangsAt;
  }

  lemma ClosedOutline(t: Timeline, at: string)
    ensures SameOutline(t, CloseTail(t, at))
    ensures forall i, id :: 0 <= i < |t| - 1 && HangsAt(t, i, id) ==> HangsAt(CloseTail(t, at), i, id)
  {
  }

  lemma NormalizedOutline(t: Timeline)
    ensures SameOutline(t, NormalizePhases(t))
    ensures forall i, id :: 0 <= i < |t| && HangsAt(t, i, id) ==> HangsAt(NormalizePhases(t), i, id)
  {
    if LastToolSequence(t).Some? { RephasedAt(t, LastToolSequence(t).value); }
    hide RephaseAll, LastToolSequence;
  }

  lemma HeldClosed(t: Timeline, at: string, id: string)
    requires Held(t, id)
    ensures Held(CloseTail(t, at), id)
  {
    hide CloseTail, HeldAt, HangsAt, SameOutline;
    ClosedOutline(t, at);
    var p :| 0 <= p < |t| && HeldAt(t, p, id);
    HeldHangs(t, p, id);
    HeldInOther(t, CloseTail(t, at), p, id);
    OutlineLength(t, CloseTail(t, at));
  }

  lemma HeldHangs(t: Timeline, p: nat, id: string)
    requires p < |t| && HeldAt(t, p, id)
    ensures p < |t| - 1 && HangsAt(t, p, id)
  {
    hide HangsAt, Rows;
  }

  lemma OutlineLength(t: Timeline, r: Timeline)
    requires SameOutline(t, r)
    ensures |t| == |r|
  {
  }

  // ------------------------------------------------------------- one more segment

  /** After the push of a segment and before the window is bounded. */
  ghost predicate PushedAt(v: Timeline, p: nat, id: string)
    requires p < |v|
  {
    && p < |v| - 1 && HangsAt(v, p, id)
    && (forall k :: 0 <= k < |v| - 1 && k != p ==> v[k].sequence < Tail(v))
    && |Rows(v)| <= MAX_SEGMENTS + 1 && v[p].sequence + |Rows(v)| <= Tail(v) + MAX_SEGMENTS
    && (|Rows(v)| > MAX_SEGMENTS ==> !Protected(v[|v| - 1]))
  }

  lemma HeldPushed(t: Timeline, s: Segment, p: nat, id: string)
    requires p < |t| && HeldAt(t, p, id) && s.sequence == NextSequence(t)
    ensures PushedAt(t + [s], p, id)
  {
    Snoc(t, s);
    hide Rows, Filter, RowKeys, ThinkingText, AnswerText;
  }

  lemma PushedInOther(v: Timeline, w: Timeline, p: nat, id: string)
    requires p < |v| && PushedAt(v, p, id) && SameOutline(v, w) && HangsAt(w, p, id)
    ensures PushedAt(w, p, id)
  {
    SameRowCount(v, w);
    hide Rows, Protected, HangsAt;
  }

  /** What is strictly above everything else comes last. */
  lemma GreatestLast<T(!new)>(leq: (T, T) -> bool, s: seq<T>, x: T)
    requires TotalPreorder(leq) && x in s && forall e :: e in s ==> e == x || !leq(x, e)
    ensures var r := SortBy(leq, s); r != [] && r[|r| - 1] == x && forall e :: e in r <==> e in s
  {
    var r := SortBy(leq, s);
    SortPermutes(leq, s);
    SortSorts(leq, s);
    hide SortBy, TotalPreorder;
    forall e ensures e in r <==> e in s { assert e in multiset(r) <==> e in multiset(s); }
    SortedLast(leq, r, x);
  }

  lemma Kept(v: Timeline, e: Segment)
    requires e in Filter(Protected, v) + Newest(Rows(v))
    ensures e in v
  {
    hide Filter;
    FilterSound(Protected, v);
    FilterSound(Not(Protected), v);
  }

  lemma EvictedCount(v: Timeline)
    requires |Rows(v)| > MAX_SEGMENTS
    ensures |Rows(SortBy(SegmentLeq, Filter(Protected, v) + Newest(Rows(v))))| == MAX_SEGMENTS
  {
    SortedParts(Protected, SegmentLeq, v);
    hide Filter, SortBy;
  }

  lemma TailIsGreatest(v: Timeline, p: nat, id: string)
    requires p < |v| && PushedAt(v, p, id) && |Rows(v)| > MAX_SEGMENTS
    ensures var last := v[|v| - 1]; v[p].sequence < last.sequence && v[p] != last
    ensures forall e :: e in v ==> e == v[|v| - 1] || e.sequence < Tail(v)
  {
    hide Rows, HangsAt;
  }

  lemma SortedAbove(t: Timeline, last: Segment, id: string, s: Segment)
    requires t != [] && t[|t| - 1] == last && |Rows(t)| == MAX_SEGMENTS && s in t && s != last
    requires forall e :: e in t ==> e == last || e.sequence < last.sequence
    requires s.id == id && s.body.Text? && StreamingProse(s)
    ensures Held(t, id)
  {
    hide Rows;
    var p :| 0 <= p < |t| && t[p] == s;
    assert HeldAt(t, p, id);
  }

  lemma HeldBounded(v: Timeline, p: nat, id: string)
    requires p < |v| && PushedAt(v, p, id)
    ensures Held(BoundAssistantTimeline(v), id)
  {
    if |Rows(v)| <= MAX_SEGMENTS {
      FitsWindow(v);
      hide Rows, Bound, HangsAt;
      assert HeldAt(v, p, id);
    } else {
      HeldEvicted(v, p, id);
    }
  }

  lemma HeldEvicted(v: Timeline, p: nat, id: string)
    requires p < |v| && PushedAt(v, p, id) && |Rows(v)| > MAX_SEGMENTS
    ensures Held(BoundAssistantTimeline(v), id)
  {
    hide Filter, Rows, Bound, SortBy, Newest, Held, TotalPreorder, Tail;
    var kept, last := Filter(Protected, v) + Newest(Rows(v)), v[|v| - 1];
    TailIsGreatest(v, p, id);
    PushedText(v, p, id);
    TextKept(v, v[p]);
    LastRowKept(v);
    SegmentLeqPreorder();
    forall e | e in kept ensures e == last || (e.sequence < last.sequence && !SegmentLeq(last, e)) {
      Kept(v, e);
      TailOf(v);
    }
    GreatestLast(SegmentLeq, kept, last);
    BoundEvicts(v);
    EvictedCount(v);
    SortedAbove(SortBy(SegmentLeq, kept), last, id, v[p]);
  }

  lemma TailOf(v: Timeline)
    requires v != []
    ensures Tail(v) == v[|v| - 1].sequence
  {
  }

  lemma PushedText(v: Timeline, p: nat, id: string)
    requires p < |v| && PushedAt(v, p, id)
    ensures v[p].id == id && v[p].body.Text? && StreamingProse(v[p])
    ensures |Rows(v)| > MAX_SEGMENTS ==> !Protected(v[|v| - 1])
  {
    hide Rows;
  }

  lemma TextKept(v: Timeline, s: Segment)
    requires s in v && Protected(s)
    ensures s in Filter(Protected, v)
  {
    hide Filter;
    FilterSound(Protected, v);
  }

  /** A segment is pushed and the window bounded, with or without a new phase for the texts. */
  lemma HeldNext(t: Timeline, at: string, s: Segment, id: string)
    requires Held(t, id) && s.sequence == NextSequence(CloseTail(t, at))
    ensures Held(BoundAssistantTimeline(CloseTail(t, at) + [s]), id)
    ensures Held(BoundAssistantTimeline(NormalizePhases(CloseTail(t, at) + [s])), id)
  {
    hide HeldAt, PushedAt, HangsAt, Bound, NormalizePhases, CloseTail, SameOutline;
    HeldClosed(t, at, id);
    var c := CloseTail(t, at);
    var p :| 0 <= p < |c| && HeldAt(c, p, id);
    var v := c + [s];
    HeldPushed(c, s, p, id);
    HeldBounded(v, p, id);
    NormalizedOutline(v);
    OutlineLength(v, NormalizePhases(v));
    PushedHangs(v, p, id);
    PushedInOther(v, NormalizePhases(v), p, id);
    HeldBounded(NormalizePhases(v), p, id);
  }

  lemma PushedHangs(v: Timeline, p: nat, id: string)
    requires p < |v| && PushedAt(v, p, id)
    ensures HangsAt(v, p, id)
  {
    hide Rows, HangsAt;
  }

  // ------------------------------------------------------------------ every input

  lemma HeldReplaced(t: Timeline, k: nat, s: Segment, id: string)
    requires Held(t, id) && k < |t| && s.sequence == t[k].sequence && Protected(s) == Protected(t[k])
    requires k == |t| - 1 || !t[k].body.Text?
    ensures Held(t[k := s], id)
  {
    hide HeldAt;
    var p :| 0 <= p < |t| && HeldAt(t, p, id);
    HeldHangs(t, p, id);
    HeldInOther(t, t[k := s], p, id);
  }

  lemma HeldGrown(t: Timeline, tail: Segment, id: string)
    requires Held(t, id) && t != [] && tail.sequence == Tail(t) && Protected(tail) && Protected(t[|t| - 1])
    ensures Held(t[..|t| - 1] + [tail], id)
  {
    hide Held;
    assert t[..|t| - 1] + [tail] == t[|t| - 1 := tail];
    HeldReplaced(t, |t| - 1, tail, id);
  }

  lemma HeldThinking(runId: string, t: Timeline, text: string, at: string, id: string)
    requires Held(t, id)
    ensures Held(AppendThinkingDelta(runId, t, text, at), id)
  {
    hide Held, Bound, NormalizePhases, CloseTail, SequenceText, NextSequence;
    var next := NextSequence(CloseTail(t, at));
    if t != [] && t[|t| - 1].body.Thinking? {
      var tail := t[|t| - 1];
      HeldGrown(t, tail.(body := Thinking(tail.body.thought.(text := tail.body.thought.text + text))), id);
    }
    HeldNext(t, at, Segment("think-" + runId + "-" + SequenceText(next), next, Thinking(Opening(text, at))), id);
  }

  lemma HeldText(runId: string, t: Timeline, phase: Phase, text: string, at: string, id: string)
    requires Held(t, id)
    ensures Held(AppendTextDelta(runId, t, phase, text, at), id)
  {
    hide Held, Bound, NormalizePhases, CloseTail, SequenceText, NextSequence;
    var next := NextSequence(CloseTail(t, at));
    if t != [] && t[|t| - 1].body.Text? {
      var tail := t[|t| - 1];
      HeldGrown(t, tail.(body := Text(phase, tail.body.answer.(text := tail.body.answer.text + text))), id);
    }
    HeldNext(t, at, Segment("text-" + runId + "-" + SequenceText(next), next, Text(phase, Opening(text, at))), id);
  }

  lemma HeldTool(runId: string, t: Timeline, call: string, name: string, args: Option<string>, at: string, id: string)
    requires Held(t, id)
    ensures Held(StartTool(runId, t, call, name, args, at), id)
  {
    hide Held, Bound, NormalizePhases, CloseTail, NextSequence, FindTool;
    match FindTool(t, call) {
      case Some(i) => HeldReplaced(t, i, StartTool(runId, t, call, name, args, at)[i], id);
      case None =>
        HeldNext(t, at, Segment("tool-" + runId + "-" + call, NextSequence(CloseTail(t, at)),
                                Tool(ToolRow(call, name, args, None, false, Running, at, None))), id);
    }
  }

  lemma HeldCompleted(t: Timeline, call: string, output: string, failed: bool, at: string, id: string)
    requires Held(t, id)
    ensures Held(CompleteTool(t, call, output, failed, at), id)
  {
    hide Held, FindTool;
    match FindTool(t, call) {
      case Some(i) => HeldReplaced(t, i, CompleteTool(t, call, output, failed, at)[i], id);
      case None =>
    }
  }

  lemma HeldStatus(runId: string, t: Timeline, row: StatusRow, id: string)
    requires Held(t, id)
    ensures Held(AppendStatus(runId, t, row), id)
  {
    hide Held, Bound, NormalizePhases, CloseTail, SequenceText, NextSequence;
    var next := NextSequence(CloseTail(t, row.occurredAt));
    HeldNext(t, row.occurredAt, Segment("status-" + runId + "-" + SequenceText(next), next, Status(row)), id);
  }

  lemma HeldStep(runId: string, t: Timeline, input: Input, id: string)
    requires Held(t, id)
    ensures Held(Reduce(runId, t, input), id)
  {
    hide Held, AppendThinkingDelta, AppendTextDelta, StartTool, CompleteTool, AppendStatus, CloseTail;
    match input
    case ThinkingDelta(text, at) => HeldThinking(runId, t, text, at, id);
    case TextDelta(phase, text, at) => HeldText(runId, t, phase, text, at, id);
    case ToolStarted(call, name, args, at) => HeldTool(runId, t, call, name, args, at, id);
    case ToolCompleted(call, output, failed, at) => HeldCompleted(t, call, output, failed, at, id);
    case StatusNoted(row) => HeldStatus(runId, t, row, id);
    case Closed(at) => HeldClosed(t, at, id);
  }

  function Resume(runId: string, t: Timeline, inputs: seq<Input>): Timeline {
    if inputs == [] then t
    else Reduce(runId, Resume(runId, t, inputs[..|inputs| - 1]), inputs[|inputs| - 1])
  }

  lemma {:induction false} HeldForever(runId: string, t: Timeline, inputs: seq<Input>, id: string)
    requires Held(t, id)
    ensures Hangs(Resume(runId, t, inputs), id) && Held(Resume(runId, t, inputs), id)
    decreases |inputs|
  {
    hide Reduce;
    if inputs != [] {
      HeldForever(runId, t, inputs[..|inputs| - 1], id);
      HeldStep(runId, Resume(runId, t, inputs[..|inputs| - 1]), inputs[|inputs| - 1], id);
    }
    hide HangsAt, Rows, Resume;
  }

  // ------------------------------------------------------------ how it can be ended

  function Notes(row: StatusRow, n: nat): seq<Input> {
    seq(n, k => StatusNoted(row))
  }

  function NoteSegment(runId: string, row: StatusRow, sequence: int): Segment {
    Segment("status-" + runId + "-" + SequenceText(sequence), sequence, Status(row))
  }

  /** What `n` statuses leave, numbered from `first` on. */
  function Noted(runId: string, row: StatusRow, first: int, n: nat): Timeline {
    seq(n, k => NoteSegment(runId, row, first + k))
  }

  /** Nothing to close at the tail. */
  predicate Settled(t: Timeline) {
    t != [] ==> !StreamingProse(t[|t| - 1])
  }

  lemma SettledStays(t: Timeline, at: string)
    requires Settled(t)
    ensures CloseTail(t, at) == t
  {
  }

  lemma NotedSnoc(runId: string, row: StatusRow, first: int, n: nat)
    ensures Noted(runId, row, first, n + 1) == Noted(runId, row, first, n) + [NoteSegment(runId, row, first + n)]
    ensures Notes(row, n + 1) == Notes(row, n) + [StatusNoted(row)]
    ensures Notes(row, n + 1)[..n] == Notes(row, n) && |Notes(row, n + 1)| == n + 1
  {
    hide NoteSegment;
  }

  /** Statuses for which there is room are just appended. */
  lemma {:induction false} NotesFit(runId: string, t: Timeline, row: StatusRow, n: nat)
    requires Settled(t) && |Rows(t)| + n <= MAX_SEGMENTS
    ensures var r := t + Noted(runId, row, NextSequence(t), n);
            && Resume(runId, t, Notes(row, n)) == r && Settled(r) && |Rows(r)| == |Rows(t)| + n
            && NextSequence(r) == NextSequence(t) + n
  {
    hide Rows, Noted, Notes, Resume, AppendStatus, NextSequence, NoteSegment, Settled;
    if n == 0 {
      NotedNothing(runId, t, row);
    } else {
      var noted := Noted(runId, row, NextSequence(t), n - 1);
      NotesFit(runId, t, row, n - 1);
      NotedSnoc(runId, row, NextSequence(t), n - 1);
      ResumeOneMore(runId, t, Notes(row, n - 1), StatusNoted(row));
      NoteFits(runId, t + noted, row);
      ConcatAssociative(t, noted, [NoteSegment(runId, row, NextSequence(t) + n - 1)]);
    }
  }

  lemma NotedNothing(runId: string, t: Timeline, row: StatusRow)
    ensures t + Noted(runId, row, NextSequence(t), 0) == t && Resume(runId, t, Notes(row, 0)) == t
  {
  }

  lemma NoteFits(runId: string, u: Timeline, row: StatusRow)
    requires Settled(u) && |Rows(u)| < MAX_SEGMENTS
    ensures var r := u + [NoteSegment(runId, row, NextSequence(u))];
            && AppendStatus(runId, u, row) == r && Settled(r) && |Rows(r)| == |Rows(u)| + 1
            && NextSequence(r) == NextSequence(u) + 1
  {
    hide Rows, Bound, SequenceText;
    SettledStays(u, row.occurredAt);
    Snoc(u, NoteSegment(runId, row, NextSequence(u)));
    FitsWindow(u + [NoteSegment(runId, row, NextSequence(u))]);
  }

  lemma UniqueAt<T>(s: seq<T>, i: nat)
    requires i < |s| && forall k :: 0 <= k < |s| && k != i ==> s[k] != s[i]
    ensures multiset(s)[s[i]] == 1
  {
    assert s == s[..i] + [s[i]] + s[i + 1..];
  }

  /** What is left once a segment that occurs once has been taken from the end. */
  lemma OnceAtEnd<T>(s: seq<T>, x: T)
    requires s != [] && s[|s| - 1] == x && multiset(s)[x] == 1
    ensures forall k :: 0 <= k < |s| - 1 ==> s[k] != x
  {
    SplitLast(s);
    forall k | 0 <= k < |s| - 1 ensures s[k] != x { assert s[k] in s[..|s| - 1]; }
  }

  /** The prose of `v`, and rows of it. */
  lemma KeptOnce(v: Timeline, x: Segment)
    requires Protected(x) && multiset(v)[x] == 1
    ensures multiset(Filter(Protected, v) + Newest(Rows(v)))[x] == 1
  {
    FilterMultiplicity(Protected, v, x);
    FilterSound(Not(Protected), v);
    hide Filter;
    assert x !in Rows(v);
    assert x !in Newest(Rows(v));
  }

  /** A sort that puts the one streaming segment last. */
  lemma TextSinks(v: Timeline, i: nat)
    requires i < |v| && |Rows(v)| > MAX_SEGMENTS && v[i].body.Text?
    requires forall k :: 0 <= k < |v| && k != i ==> !StreamingProse(v[k]) && !SegmentLeq(v[i], v[k]) && v[k] != v[i]
    ensures var r := BoundAssistantTimeline(v);
            r != [] && r[|r| - 1] == v[i] && forall k :: 0 <= k < |r| - 1 ==> !StreamingProse(r[k])
  {
    hide Filter, Rows, Bound, SortBy, Newest, TotalPreorder, StreamingProse, SegmentLeq;
    var x, kept := v[i], Filter(Protected, v) + Newest(Rows(v));
    UniqueAt(v, i);
    KeptOnce(v, x);
    TextKept(v, x);
    SegmentLeqPreorder();
    forall e | e in kept ensures e == x || (!StreamingProse(e) && !SegmentLeq(x, e)) {
      Kept(v, e);
    }
    GreatestLast(SegmentLeq, kept, x);
    SortPermutes(SegmentLeq, kept);
    BoundEvicts(v);
    var r := SortBy(SegmentLeq, kept);
    OnceAtEnd(r, x);
    forall k | 0 <= k < |r| - 1 ensures !StreamingProse(r[k]) { assert r[k] in kept; }
  }

  ghost predicate AllEnded(t: Timeline) {
    forall k :: 0 <= k < |t| ==> !StreamingProse(t[k])
  }

  lemma CloseEnds(t: Timeline, at: string)
    requires forall k :: 0 <= k < |t| - 1 ==> !StreamingProse(t[k])
    ensures AllEnded(CloseTail(t, at))
  {
  }

  // ------------------------------------------------------------- the exact condition

  /** The timeline after an insertion before its tail. */
  lemma InsertedFacts(runId: string, t: Timeline, phase: Phase, text: string, at: string, after: nat)
    requires Orderly(t) && text != "" && !Continues(t, phase, after) && FirstFrom(t, after) < |t|
    ensures var i, r := FirstFrom(t, after), AppendLateText(runId, t, phase, text, at, after);
            && |r| == |t| + 1 && r[i] == Late(runId, phase, text, at, after) && |Rows(r)| == |Rows(t)|
            && forall k :: 0 <= k < |r| && k != i ==> r[k].sequence == k && !StreamingProse(r[k])
  {
    var s, i := Late(runId, phase, text, at, after), FirstFrom(t, after);
    LateTextPlaced(runId, t, phase, text, at, after);
    SamePlace(t, at, after);
    InsertedSequences(CloseTail(t, at), s);
    CloseOrderly(t, at);
    InsertedStreaming(CloseTail(t, at), s);
    hide AppendLateText, Inserted, CloseTail, FirstFrom, Orderly, StreamingProse, Late, Display, Rows;
    DisplayLength(Rows(t));
    DisplayLength(Rows(AppendLateText(runId, t, phase, text, at, after)));
  }

  lemma DisplayLength(rows: Timeline)
    ensures |Display(rows)| == |rows|
  {
  }

  lemma InsertedStreaming(c: Timeline, s: Segment)
    requires forall k :: 0 <= k < |c| ==> !StreamingProse(c[k])
    ensures var i, r := FirstFrom(c, s.sequence), Inserted(c, s);
            |r| == |c| + 1 && forall k :: 0 <= k < |r| && k != i ==> !StreamingProse(r[k])
  {
    hide FirstFrom;
  }

  /** How far above the tail the text may be numbered. */
  function RoomAbove(t: Timeline): int {
    |t| + MAX_SEGMENTS - |Rows(t)|
  }

  lemma LateTextHeld(runId: string, t: Timeline, phase: Phase, text: string, at: string, after: nat)
    requires Orderly(t) && text != "" && !Continues(t, phase, after) && FirstFrom(t, after) < |t|
    requires after <= RoomAbove(t)
    ensures Held(AppendLateText(runId, t, phase, text, at, after), Late(runId, phase, text, at, after).id)
  {
    hide AppendLateText, FirstFrom, Orderly, Continues, Rows, SequenceText, Held, StreamingProse, Late;
    InsertedFacts(runId, t, phase, text, at, after);
    LateStreams(runId, phase, text, at, after);
    OrderlyWindow(t);
    HeldFresh(AppendLateText(runId, t, phase, text, at, after), FirstFrom(t, after));
  }

  lemma OrderlyWindow(t: Timeline)
    requires Orderly(t)
    ensures |Rows(t)| <= MAX_SEGMENTS
  {
    hide Rows, SortedBy;
  }

  lemma HeldFresh(r: Timeline, i: nat)
    requires i < |r| - 1 && r[i].body.Text? && StreamingProse(r[i]) && |Rows(r)| <= MAX_SEGMENTS
    requires r[i].sequence <= |r| - 1 + MAX_SEGMENTS - |Rows(r)|
    requires forall k :: 0 <= k < |r| && k != i ==> r[k].sequence == k
    ensures Held(r, r[i].id)
  {
    hide Rows, StreamingProse;
    assert HeldAt(r, i, r[i].id);
  }

  lemma LateStreams(runId: string, phase: Phase, text: string, at: string, after: int)
    ensures var s := Late(runId, phase, text, at, after);
            && s.body.Text? && StreamingProse(s) && s.sequence == after
            && s.id == "text-" + runId + "-" + SequenceText(s.sequence)
  {
    hide SequenceText;
  }

  lemma IdsDiffer(runId: string, row: StatusRow, n: int)
    ensures !StringLeq("text-" + runId + "-" + SequenceText(n), "status-" + runId + "-" + SequenceText(n))
  {
    var a, b := "text-" + runId + "-" + SequenceText(n), "status-" + runId + "-" + SequenceText(n);
    assert a[0] == 't' && b[0] == 's';
    hide SequenceText;
  }

  /** After enough statuses the text is above everything. */
  lemma TextAboveAll(runId: string, r: Timeline, row: StatusRow, i: nat, s: Segment, n: nat)
    requires 0 < n && i < |r| - 1 && r[i] == s && s.id == "text-" + runId + "-" + SequenceText(s.sequence)
    requires s.sequence >= |r| - 1 + n
    requires forall k :: 0 <= k < |r| && k != i ==> r[k].sequence == k && !StreamingProse(r[k])
    ensures var v := r + Noted(runId, row, |r|, n);
            forall k :: 0 <= k < |v| && k != i ==> !StreamingProse(v[k]) && !SegmentLeq(v[i], v[k]) && v[k] != v[i]
  {
    hide SequenceText, StringLeq;
    IdsDiffer(runId, row, s.sequence);
    StringLeqTotal(s.id, s.id);
    var v := r + Noted(runId, row, |r|, n);
    forall k | 0 <= k < |v| && k != i ensures !StreamingProse(v[k]) && !SegmentLeq(v[i], v[k]) && v[k] != v[i] {
      if k >= |r| { assert v[k] == NoteSegment(runId, row, k); }
    }
  }

  lemma SunkByNotes(runId: string, r: Timeline, row: StatusRow, i: nat, n: nat, end: string)
    requires i < |r| - 1 && r[i].body.Text? && r[i].id == "text-" + runId + "-" + SequenceText(r[i].sequence)
    requires 0 < n && |Rows(r)| + n == MAX_SEGMENTS + 1 && r[i].sequence >= |r| - 1 + n
    requires forall k :: 0 <= k < |r| && k != i ==> r[k].sequence == k && !StreamingProse(r[k])
    ensures AllEnded(Resume(runId, r, Notes(row, n) + [Closed(end)]))
  {
    hide Rows, Bound, AllEnded, Noted, Notes, SequenceText, StreamingProse, SegmentLeq, AppendStatus, Resume;
    var u, v := r + Noted(runId, row, |r|, n - 1), r + Noted(runId, row, |r|, n);
    NotesFit(runId, r, row, n - 1);
    NotePushed(runId, u, row);
    NotedSnoc(runId, row, |r|, n - 1);
    ConcatAssociative(r, Noted(runId, row, |r|, n - 1), [NoteSegment(runId, row, |r| + n - 1)]);
    TextAboveAll(runId, r, row, i, r[i], n);
    TextSinks(v, i);
    CloseEnds(BoundAssistantTimeline(v), end);
    ResumeOneMore(runId, r, Notes(row, n - 1), StatusNoted(row));
    ResumeOneMore(runId, r, Notes(row, n), Closed(end));
    hide NextSequence, CloseTail, NoteSegment;
  }

  lemma NotePushed(runId: string, u: Timeline, row: StatusRow)
    requires Settled(u)
    ensures var v := u + [NoteSegment(runId, row, NextSequence(u))];
            AppendStatus(runId, u, row) == BoundAssistantTimeline(v) && |Rows(v)| == |Rows(u)| + 1
  {
    hide Rows, Bound, SequenceText;
    SettledStays(u, row.occurredAt);
    Snoc(u, NoteSegment(runId, row, NextSequence(u)));
  }

  /** Enough statuses force a sort that makes the text the tail, where it can be closed. */
  lemma LateTextEnds(runId: string, t: Timeline, phase: Phase, text: string, at: string, after: nat, row: StatusRow,
                     end: string)
    requires Orderly(t) && text != "" && !Continues(t, phase, after) && FirstFrom(t, after) < |t|
    requires after > RoomAbove(t)
    ensures var r := AppendLateText(runId, t, phase, text, at, after);
            AllEnded(Resume(runId, r, Notes(row, MAX_SEGMENTS + 1 - |Rows(t)|) + [Closed(end)]))
  {
    hide AppendLateText, FirstFrom, Orderly, Continues, Rows, SequenceText, Resume, AllEnded, Notes, Late;
    OrderlyWindow(t);
    InsertedFacts(runId, t, phase, text, at, after);
    LateStreams(runId, phase, text, at, after);
    SunkByNotes(runId, AppendLateText(runId, t, phase, text, at, after), row, FirstFrom(t, after),
                MAX_SEGMENTS + 1 - |Rows(t)|, end);
  }

  lemma ResumeOneMore(runId: string, t: Timeline, inputs: seq<Input>, input: Input)
    ensures Resume(runId, t, inputs + [input]) == Reduce(runId, Resume(runId, t, inputs), input)
  {
    hide Reduce;
    assert (inputs + [input])[..|inputs|] == inputs;
  }

  /** A text put before other segments streams for ever, whatever comes afterwards, if and
      only if its number is not above what the timeline and its free rows will reach before
      the first sort. */
  lemma LateTextStreamsExactly(runId: string, t: Timeline, phase: Phase, text: string, at: string, after: nat)
    requires Orderly(t) && text != "" && !Continues(t, phase, after) && FirstFrom(t, after) < |t|
    ensures var r, id := AppendLateText(runId, t, phase, text, at, after), Late(runId, phase, text, at, after).id;
            (forall inputs :: Hangs(Resume(runId, r, inputs), id)) <==> after <= RoomAbove(t)
  {
    hide *;
    var r, id := AppendLateText(runId, t, phase, text, at, after), Late(runId, phase, text, at, after).id;
    if after <= RoomAbove(t) {
      LateTextHeld(runId, t, phase, text, at, after);
      forall inputs ensures Hangs(Resume(runId, r, inputs), id) { HeldForever(runId, r, inputs, id); }
    } else {
      OrderlyWindow(t);
      var row := StatusRow("", "", None, "");
      var inputs := Notes(row, MAX_SEGMENTS + 1 - |Rows(t)|) + [Closed("")];
      LateTextEnds(runId, t, phase, text, at, after, row, "");
      EndedHangsNot(Resume(runId, r, inputs), id);
    }
  }

  lemma EndedHangsNot(t: Timeline, id: string)
    requires AllEnded(t)
    ensures !Hangs(t, id)
  {
  }

  // ----------------------------------------------------------------- reachable cases

  lemma {:induction false} ReplayResumes(runId: string, inputs: seq<Input>)
    ensures Replay(runId, inputs) == Resume(runId, [], inputs)
    decreases |inputs|
  {
    hide Reduce;
    if inputs != [] { ReplayResumes(runId, inputs[..|inputs| - 1]); }
  }

  lemma NotedNumbers(runId: string, row: StatusRow, first: int, n: nat)
    ensures var t := Noted(runId, row, first, n);
            && |t| == n && SortedBy(Before, t) && Rows(t) == t && Settled(t)
            && forall k :: 0 <= k < n ==> t[k] == NoteSegment(runId, row, first + k)
  {
    hide SequenceText, Rows;
    var t := Noted(runId, row, first, n);
    assert forall k :: 0 <= k < |t| ==> t[k] == NoteSegment(runId, row, first + k);
    assert forall k :: 0 <= k < |t| ==> t[k].sequence == first + k && !Protected(t[k]);
    AllRows(t);
  }

  lemma AllRows(t: Timeline)
    requires forall k :: 0 <= k < |t| ==> !Protected(t[k])
    ensures Rows(t) == t
  {
    hide Filter;
    FilterAll(Not(Protected), t);
  }

  lemma DropFirst(t: Timeline)
    requires t != [] && !Protected(t[0])
    ensures DropOldest(Protected, t, 1) == t[1..]
  {
    assert DropOldest(Protected, t[1..], 0) == t[1..];
  }

  lemma BoundDropsOne(v: Timeline)
    requires SortedBy(Before, v) && |Rows(v)| == MAX_SEGMENTS + 1
    ensures BoundAssistantTimeline(v) == DropOldest(Protected, v, 1)
  {
    hide DropOldest, Filter, Bound, SortedBy, TotalPreorder, AntisymmetricOn;
    SegmentLeqPreorder();
    InOrderIsSorted(v);
    BoundDropsOldest(Protected, SegmentLeq, v);
  }

  /** On a full window of statuses one more takes the place of the oldest. */
  lemma NoteShifts(runId: string, row: StatusRow, first: int)
    ensures AppendStatus(runId, Noted(runId, row, first, MAX_SEGMENTS), row) ==
            Noted(runId, row, first + 1, MAX_SEGMENTS)
  {
    hide Rows, Bound, SortedBy, TotalPreorder, AntisymmetricOn, DropOldest, Filter, SequenceText;
    var t, v := Noted(runId, row, first, MAX_SEGMENTS), Noted(runId, row, first, MAX_SEGMENTS + 1);
    NotedNumbers(runId, row, first, MAX_SEGMENTS);
    NotedNumbers(runId, row, first, MAX_SEGMENTS + 1);
    NotedSnoc(runId, row, first, MAX_SEGMENTS);
    NotePushed(runId, t, row);
    BoundDropsOne(v);
    DropFirst(v);
    assert v[1..] == Noted(runId, row, first + 1, MAX_SEGMENTS);
  }

  /** The window after at least 512 statuses. */
  lemma {:induction false} NotesReplayed(runId: string, row: StatusRow, n: nat)
    requires n >= MAX_SEGMENTS
    ensures Replay(runId, Notes(row, n)) == Noted(runId, row, n - MAX_SEGMENTS, MAX_SEGMENTS)
    decreases n
  {
    hide Noted, Notes, Rows, AppendStatus, Replay, Resume;
    ReplayResumes(runId, Notes(row, n));
    if n == MAX_SEGMENTS {
      NoRows();
      NotesFit(runId, [], row, n);
      hide Settled;
      assert [] + Noted(runId, row, 0, n) == Noted(runId, row, 0, n);
    } else {
      ReplayResumes(runId, Notes(row, n - 1));
      NotesReplayed(runId, row, n - 1);
      NotedSnoc(runId, row, 0, n - 1);
      ResumeOneMore(runId, [], Notes(row, n - 1), StatusNoted(row));
      NoteShifts(runId, row, n - 1 - MAX_SEGMENTS);
    }
  }

  lemma NoRows()
    ensures |Rows([])| == 0
  {
  }

  /** The timeline into which the held back text is put. */
  lemma WindowFacts(runId: string, row: StatusRow, phase: Phase, n: nat)
    requires n >= MAX_SEGMENTS
    ensures var t := Replay(runId, Notes(row, n + 1));
            && NextSequence(Replay(runId, Notes(row, n))) == n && Orderly(t) && !Continues(t, phase, n)
            && |t| == |Rows(t)| == MAX_SEGMENTS && FirstFrom(t, n) == MAX_SEGMENTS - 1
            && forall k :: 0 <= k < |t| ==> t[k].sequence >= 0
  {
    hide *;
    NotesReplayed(runId, row, n);
    NotesReplayed(runId, row, n + 1);
    NumberAfter(runId, row, n - MAX_SEGMENTS);
    PlaceInWindow(runId, row, phase, n + 1 - MAX_SEGMENTS);
    Conservation(runId, Notes(row, n + 1));
  }

  lemma NumberAfter(runId: string, row: StatusRow, first: int)
    ensures NextSequence(Noted(runId, row, first, MAX_SEGMENTS)) == first + MAX_SEGMENTS
  {
    hide SequenceText;
    NotedSnoc(runId, row, first, MAX_SEGMENTS - 1);
  }

  lemma PlaceInWindow(runId: string, row: StatusRow, phase: Phase, first: nat)
    requires first > 0
    ensures var t, n := Noted(runId, row, first, MAX_SEGMENTS), first + MAX_SEGMENTS - 1;
            && !Continues(t, phase, n) && |t| == |Rows(t)| == MAX_SEGMENTS && FirstFrom(t, n) == MAX_SEGMENTS - 1
            && forall k :: 0 <= k < |t| ==> t[k].sequence >= 0
  {
    hide SequenceText, Noted, Rows, SortedBy, FirstFrom;
    var t, n := Noted(runId, row, first, MAX_SEGMENTS), first + MAX_SEGMENTS - 1;
    NotedNumbers(runId, row, first, MAX_SEGMENTS);
    assert forall k :: 0 <= k < |t| ==> t[k].sequence == first + k;
  }

  /** Text arrives after `n` statuses and is held back, one more status is noted, and then
      the text is put in: it comes out of order, and it can be ended exactly when more than
      512 rows were there before. */
  lemma LateTextMisplaced(runId: string, row: StatusRow, phase: Phase, n: nat)
    requires n >= MAX_SEGMENTS
    ensures var t, held := Replay(runId, Notes(row, n + 1)), NextSequence(Replay(runId, Notes(row, n)));
            && held >= 0 && var r := AppendLateText(runId, t, phase, "answer", "", held);
            && !SortedBy(Before, r)
            && ((forall inputs :: Hangs(Resume(runId, r, inputs), Late(runId, phase, "answer", "", held).id))
                <==> n == MAX_SEGMENTS)
  {
    hide Notes, Rows, Replay, FirstFrom, AppendLateText, SortedBy, Orderly;
    hide Resume, Hangs, Late, Continues, NextSequence;
    var t := Replay(runId, Notes(row, n + 1));
    WindowFacts(runId, row, phase, n);
    LateTextOrder(runId, t, phase, "answer", "", n);
    LateTextStreamsExactly(runId, t, phase, "answer", "", n);
  }
}
