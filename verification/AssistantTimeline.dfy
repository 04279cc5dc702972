/** The assistant timeline reducers of demo-run.ts, for plain appends. */
module AssistantTimeline {
  import opened Results
  import opened Ordering
  import opened TimelineBound

  datatype Phase = Commentary | FinalAnswer

  datatype ToolStatus = Running | Completed | Failed

  datatype Passage = Passage(text: string, streaming: bool, startedAt: string, completedAt: Option<string>)

  datatype ToolRow = ToolRow(toolCallId: string, name: string, argumentsJson: Option<string>,
                             output: Option<string>, isError: bool, status: ToolStatus,
                             startedAt: string, completedAt: Option<string>)

  datatype StatusRow = StatusRow(statusType: string, heading: string, detail: Option<string>, occurredAt: string)

  datatype Body =
    | Thinking(thought: Passage)
    | Text(phase: Phase, answer: Passage)
    | Tool(tool: ToolRow)
    | Status(status: StatusRow)

  datatype Segment = Segment(id: string, sequence: int, body: Body)

  type Timeline = seq<Segment>

  predicate Protected(s: Segment) {
    s.body.Thinking? || s.body.Text?
  }

  predicate StreamingProse(s: Segment) {
    match s.body
    case Thinking(p) => p.streaming
    case Text(_, p) => p.streaming
    case _ => false
  }

  predicate SegmentLeq(a: Segment, b: Segment) {
    a.sequence < b.sequence || (a.sequence == b.sequence && StringLeq(a.id, b.id))
  }

  function SequenceText(n: int): string {
    if n < 0 then "-" + Decimal(-n) else Decimal(n)
  }

  // ----------------------------------------------------------------- reducers

  function BoundAssistantTimeline(t: Timeline): Timeline {
    Bound(Protected, SegmentLeq, t)
  }

  function ClosePassage(p: Passage, occurredAt: string): Passage {
    if !p.streaming then p
    else if occurredAt == "" then p.(streaming := false)
    else p.(streaming := false, completedAt := Some(occurredAt))
  }

  function CloseSegment(s: Segment, occurredAt: string): Segment {
    match s.body
    case Thinking(p) => s.(body := Thinking(ClosePassage(p, occurredAt)))
    case Text(phase, p) => s.(body := Text(phase, ClosePassage(p, occurredAt)))
    case _ => s
  }

  function CloseTail(t: Timeline, occurredAt: string): Timeline {
    if t == [] then [] else t[..|t| - 1] + [CloseSegment(t[|t| - 1], occurredAt)]
  }

  function NextSequence(t: Timeline): int {
    if t == [] then 0 else t[|t| - 1].sequence + 1
  }

  function Opening(text: string, at: string): Passage {
    Passage(text, true, at, None)
  }

  function AppendThinkingDelta(runId: string, t: Timeline, text: string, at: string): Timeline {
    if text == "" then t
    else if t != [] && t[|t| - 1].body.Thinking? && StreamingProse(t[|t| - 1]) then
      var tail := t[|t| - 1];
      t[..|t| - 1] + [tail.(body := Thinking(tail.body.thought.(text := tail.body.thought.text + text)))]
    else
      var closed := CloseTail(t, at);
      var n := NextSequence(closed);
      BoundAssistantTimeline(
        closed + [Segment("think-" + runId + "-" + SequenceText(n), n, Thinking(Opening(text, at)))])
  }

  /** Without `afterSequence`. */
  function AppendTextDelta(runId: string, t: Timeline, phase: Phase, text: string, at: string): Timeline {
    if text == "" then t
    else if t != [] && t[|t| - 1].body.Text? && t[|t| - 1].body.phase == phase && StreamingProse(t[|t| - 1]) then
      var tail := t[|t| - 1];
      t[..|t| - 1] + [tail.(body := Text(phase, tail.body.answer.(text := tail.body.answer.text + text)))]
    else
      var closed := CloseTail(t, at);
      var n := NextSequence(closed);
      BoundAssistantTimeline(
        closed + [Segment("text-" + runId + "-" + SequenceText(n), n, Text(phase, Opening(text, at)))])
  }

  predicate ToolFor(s: Segment, toolCallId: string) {
    s.body.Tool? && s.body.tool.toolCallId == toolCallId
  }

  /** First tool row of a call. */
  function FindTool(t: Timeline, toolCallId: string): (index: Option<nat>)
    ensures index.Some? ==> index.value < |t| && ToolFor(t[index.value], toolCallId)
    ensures index.None? ==> forall i :: 0 <= i < |t| ==> !ToolFor(t[i], toolCallId)
  {
    if t == [] then None
    else
      match FindTool(t[..|t| - 1], toolCallId)
      case Some(i) => Some(i)
      case None => if ToolFor(t[|t| - 1], toolCallId) then Some(|t| - 1) else None
  }

  /** Sequence of the last tool row, if any. */
  function LastToolSequence(t: Timeline): Option<int> {
    if t == [] then None
    else
      var earlier := LastToolSequence(t[..|t| - 1]);
      var last := t[|t| - 1];
      if last.body.Tool? && (earlier.None? || earlier.value < last.sequence) then Some(last.sequence) else earlier
  }

  function Rephased(s: Segment, lastTool: int): Segment {
    if s.body.Text? && s.body.phase.FinalAnswer? && s.sequence < lastTool
    then s.(body := Text(Commentary, s.body.answer)) else s
  }

  function RephaseAll(t: Timeline, lastTool: int): Timeline {
    if t == [] then [] else RephaseAll(t[..|t| - 1], lastTool) + [Rephased(t[|t| - 1], lastTool)]
  }

  function NormalizePhases(t: Timeline): Timeline {
    match LastToolSequence(t)
    case None => t
    case Some(last) => RephaseAll(t, last)
  }

  function StartTool(runId: string, t: Timeline, toolCallId: string, name: string,
                     argumentsJson: Option<string>, at: string): Timeline {
    match FindTool(t, toolCallId)
    case Some(i) =>
      var row := t[i].body.tool;
      t[i := t[i].(body := Tool(row.(name := if name == "" then row.name else name,
                                     argumentsJson := if argumentsJson.Some? then argumentsJson
                                                      else row.argumentsJson)))]
    case None =>
      var closed := CloseTail(t, at);
      var row := ToolRow(toolCallId, name, argumentsJson, None, false, Running, at, None);
      BoundAssistantTimeline(
        NormalizePhases(closed + [Segment("tool-" + runId + "-" + toolCallId, NextSequence(closed), Tool(row))]))
  }

  function CompleteTool(t: Timeline, toolCallId: string, output: string, failed: bool, at: string): Timeline {
    match FindTool(t, toolCallId)
    case None => t
    case Some(i) =>
      t[i := t[i].(body := Tool(t[i].body.tool.(output := Some(output), isError := failed,
                                                status := if failed then Failed else Completed,
                                                completedAt := Some(at))))]
  }

  function AppendStatus(runId: string, t: Timeline, status: StatusRow): Timeline {
    var closed := CloseTail(t, status.occurredAt);
    var n := NextSequence(closed);
    BoundAssistantTimeline(
      closed + [Segment("status-" + runId + "-" + SequenceText(n), n, Status(status))])
  }

  // --------------------------------------------------------------------- runs

  datatype Input =
    | ThinkingDelta(text: string, at: string)
    | TextDelta(phase: Phase, text: string, at: string)
    | ToolStarted(toolCallId: string, name: string, argumentsJson: Option<string>, at: string)
    | ToolCompleted(toolCallId: string, output: string, failed: bool, at: string)
    | StatusNoted(row: StatusRow)
    | Closed(at: string)

  function Reduce(runId: string, t: Timeline, input: Input): Timeline {
    match input
    case ThinkingDelta(text, at) => AppendThinkingDelta(runId, t, text, at)
    case TextDelta(phase, text, at) => AppendTextDelta(runId, t, phase, text, at)
    case ToolStarted(call, name, args, at) => StartTool(runId, t, call, name, args, at)
    case ToolCompleted(call, output, failed, at) => CompleteTool(t, call, output, failed, at)
    case StatusNoted(row) => AppendStatus(runId, t, row)
    case Closed(at) => CloseTail(t, at)
  }

  function Replay(runId: string, inputs: seq<Input>): Timeline {
    if inputs == [] then []
    else Reduce(runId, Replay(runId, inputs[..|inputs| - 1]), inputs[|inputs| - 1])
  }

  // ------------------------------------------- what the inputs alone determine

  function ThinkingFed(inputs: seq<Input>): string {
    if inputs == [] then ""
    else ThinkingFed(inputs[..|inputs| - 1])
         + if inputs[|inputs| - 1].ThinkingDelta? then inputs[|inputs| - 1].text else ""
  }

  function AnswerFed(inputs: seq<Input>): string {
    if inputs == [] then ""
    else AnswerFed(inputs[..|inputs| - 1])
         + if inputs[|inputs| - 1].TextDelta? then inputs[|inputs| - 1].text else ""
  }

  /** A row's identity: its call, or the whole of a status. */
  datatype RowKey = ForCall(toolCallId: string) | ForStatus(row: StatusRow) | NoRow

  /** The row that an input opens while the rows `window` are on display. */
  function OpenedBy(window: seq<RowKey>, input: Input): seq<RowKey> {
    match input
    case ToolStarted(call, _, _, _) => if ForCall(call) in window then [] else [ForCall(call)]
    case StatusNoted(row) => [ForStatus(row)]
    case _ => []
  }

  /** Tool and status rows ever opened, oldest first. Starting a call again opens a
      new row only once the old one has left the window of 512. */
  function Opened(inputs: seq<Input>): seq<RowKey> {
    if inputs == [] then []
    else
      var before := Opened(inputs[..|inputs| - 1]);
      before + OpenedBy(Newest(before), inputs[|inputs| - 1])
  }

  // -------------------------------------------------- what a timeline displays

  function ThinkingText(t: Timeline): string {
    if t == [] then ""
    else ThinkingText(t[..|t| - 1]) + if t[|t| - 1].body.Thinking? then t[|t| - 1].body.thought.text else ""
  }

  function AnswerText(t: Timeline): string {
    if t == [] then ""
    else AnswerText(t[..|t| - 1]) + if t[|t| - 1].body.Text? then t[|t| - 1].body.answer.text else ""
  }

  function RowKeyOf(s: Segment): RowKey {
    match s.body
    case Tool(row) => ForCall(row.toolCallId)
    case Status(row) => ForStatus(row)
    case _ => NoRow
  }

  function RowKeys(t: Timeline): seq<RowKey> {
    if t == [] then [] else RowKeys(t[..|t| - 1]) + [RowKeyOf(t[|t| - 1])]
  }

  function Rows(t: Timeline): Timeline {
    Filter(Not(Protected), t)
  }

  predicate Before(a: Segment, b: Segment) {
    a.sequence < b.sequence
  }

  /** Strictly increasing, nothing but the tail still streaming, the window kept. */
  ghost predicate Orderly(t: Timeline) {
    && SortedBy(Before, t)
    && (forall i :: 0 <= i < |t| - 1 ==> !StreamingProse(t[i]))
    && |Rows(t)| <= MAX_SEGMENTS
  }

  // ------------------------------------------------------------------- lemmas

  lemma SegmentLeqPreorder()
    ensures TotalPreorder(SegmentLeq)
  {
    forall x, y ensures SegmentLeq(x, y) || SegmentLeq(y, x) {
      StringLeqTotal(x.id, y.id);
    }
    forall x, y, z | SegmentLeq(x, y) && SegmentLeq(y, z) ensures SegmentLeq(x, z) {
      if x.sequence == y.sequence == z.sequence { StringLeqTransitive(x.id, y.id, z.id); }
    }
  }

  /** What each reading of a timeline gains from one more segment. */
  lemma Snoc(t: Timeline, s: Segment)
    ensures ThinkingText(t + [s]) == if s.body.Thinking? then ThinkingText(t) + s.body.thought.text else ThinkingText(t)
    ensures AnswerText(t + [s]) == if s.body.Text? then AnswerText(t) + s.body.answer.text else AnswerText(t)
    ensures RowKeys(t + [s]) == RowKeys(t) + [RowKeyOf(s)]
    ensures Filter(Protected, t + [s]) == if Protected(s) then Filter(Protected, t) + [s] else Filter(Protected, t)
    ensures Rows(t + [s]) == if Protected(s) then Rows(t) else Rows(t) + [s]
  {
    assert (t + [s])[..|t|] == t;
  }

  lemma {:induction false} TextsLiveInProse(t: Timeline)
    ensures ThinkingText(Filter(Protected, t)) == ThinkingText(t)
    ensures AnswerText(Filter(Protected, t)) == AnswerText(t)
    decreases |t|
  {
    if t != [] {
      var front, last := t[..|t| - 1], t[|t| - 1];
      assert t == front + [last];
      TextsLiveInProse(front);
      Snoc(front, last);
      Snoc(Filter(Protected, front), last);
    }
  }

  lemma {:induction false} RowKeysAt(t: Timeline)
    ensures |RowKeys(t)| == |t|
    ensures forall i :: 0 <= i < |t| ==> RowKeys(t)[i] == RowKeyOf(t[i])
  {
    if t != [] { RowKeysAt(t[..|t| - 1]); }
  }

  lemma RowKeysNewest(t: Timeline)
    ensures RowKeys(Newest(t)) == Newest(RowKeys(t))
  {
    RowKeysAt(t);
    RowKeysAt(Newest(t));
  }

  /** Everything `Orderly` asks for except the window. */
  ghost predicate InOrder(t: Timeline) {
    && SortedBy(Before, t)
    && (forall i :: 0 <= i < |t| - 1 ==> !StreamingProse(t[i]))
  }

  /** Bounding a timeline in order loses no prose and keeps the newest rows. */
  lemma BoundInOrder(t: Timeline)
    requires InOrder(t)
    ensures var r := BoundAssistantTimeline(t);
            Orderly(r) && ThinkingText(r) == ThinkingText(t) && AnswerText(r) == AnswerText(t)
            && Rows(r) == Newest(Rows(t)) && RowKeys(Rows(r)) == Newest(RowKeys(Rows(t)))
  {
    var surplus := |Rows(t)| - MAX_SEGMENTS;
    var n := if surplus > 0 then surplus else 0;
    var r := DropOldest(Protected, t, n);
    SegmentLeqPreorder();
    InOrderIsSorted(t);
    BoundDropsOldest(Protected, SegmentLeq, t);
    DropOldestParts(Protected, t, n);
    DropOldestSubsequence(Protected, Before, t, n);
    TextsLiveInProse(t);
    TextsLiveInProse(r);
    RowKeysNewest(Rows(t));
    StillInOrder(t, r);
  }

  lemma InOrderIsSorted(t: Timeline)
    requires SortedBy(Before, t)
    ensures SortedBy(SegmentLeq, t) && AntisymmetricOn(SegmentLeq, t)
  {
    forall i, j | 0 <= i < j < |t| ensures t[i].sequence < t[j].sequence { assert Before(t[i], t[j]); }
    forall x, y | x in t && y in t && SegmentLeq(x, y) && SegmentLeq(y, x) ensures x == y {
      var i :| 0 <= i < |t| && t[i] == x;
      var j :| 0 <= j < |t| && t[j] == y;
    }
  }

  lemma StillInOrder(t: Timeline, r: Timeline)
    requires InOrder(t) && SortedBy(Before, r) && forall x :: x in r ==> x in t
    ensures InOrder(r)
  {
    forall i, j | 0 <= i < j < |t| ensures t[i].sequence < t[j].sequence { assert Before(t[i], t[j]); }
    forall i | 0 <= i < |r| - 1 ensures !StreamingProse(r[i]) {
      assert Before(r[i], r[|r| - 1]) && r[i] in r && r[|r| - 1] in r;
      var a :| 0 <= a < |t| && t[a] == r[i];
      var b :| 0 <= b < |t| && t[b] == r[|r| - 1];
    }
  }

  lemma {:induction false} RephaseKeeps(t: Timeline, last: int)
    ensures var r := RephaseAll(t, last);
            ThinkingText(r) == ThinkingText(t) && AnswerText(r) == AnswerText(t) && Rows(r) == Rows(t)
  {
    if t != [] {
      var front, s := t[..|t| - 1], t[|t| - 1];
      assert t == front + [s];
      assert RephaseAll(t, last) == RephaseAll(front, last) + [Rephased(s, last)];
      hide ThinkingText, AnswerText, RowKeys, Filter, Rows, RephaseAll;
      RephaseKeeps(front, last);
      Snoc(front, s);
      Snoc(RephaseAll(front, last), Rephased(s, last));
    }
  }

  lemma {:induction false} RephasedAt(t: Timeline, last: int)
    ensures |RephaseAll(t, last)| == |t|
    ensures forall i :: 0 <= i < |t| ==> RephaseAll(t, last)[i] == Rephased(t[i], last)
  {
    hide Rephased;
    if t != [] { RephasedAt(t[..|t| - 1], last); }
  }

  lemma NormalizeKeeps(t: Timeline)
    requires InOrder(t)
    ensures var r := NormalizePhases(t);
            InOrder(r) && ThinkingText(r) == ThinkingText(t) && AnswerText(r) == AnswerText(t) && Rows(r) == Rows(t)
  {
    if LastToolSequence(t).Some? {
      var r := NormalizePhases(t);
      RephaseKeeps(t, LastToolSequence(t).value);
      RephasedAt(t, LastToolSequence(t).value);
      forall i, j | 0 <= i < j < |r| ensures Before(r[i], r[j]) { assert Before(t[i], t[j]); }
    }
  }

  /** Closing the tail changes no text and no row. */
  lemma CloseKeeps(t: Timeline, at: string)
    requires Orderly(t)
    ensures var c := CloseTail(t, at);
            Orderly(c) && (forall i :: 0 <= i < |c| ==> !StreamingProse(c[i]))
            && ThinkingText(c) == ThinkingText(t) && AnswerText(c) == AnswerText(t) && Rows(c) == Rows(t)
  {
    if t != [] {
      var front, last := t[..|t| - 1], t[|t| - 1];
      var c := CloseTail(t, at);
      assert t == front + [last] && c == front + [CloseSegment(last, at)];
      CloseOrderly(t, at);
      hide ThinkingText, AnswerText, RowKeys, Filter, Rows, SortedBy, StreamingProse;
      Snoc(front, last);
      Snoc(front, CloseSegment(last, at));
    }
  }

  lemma CloseOrderly(t: Timeline, at: string)
    requires Orderly(t)
    ensures var c := CloseTail(t, at); SortedBy(Before, c) && forall i :: 0 <= i < |c| ==> !StreamingProse(c[i])
  {
    hide Rows, Filter, RowKeys;
    var c := CloseTail(t, at);
    forall i, j | 0 <= i < j < |c| ensures Before(c[i], c[j]) { assert Before(t[i], t[j]); }
  }

  lemma AppendInOrder(t: Timeline, s: Segment)
    requires Orderly(t) && (forall i :: 0 <= i < |t| ==> !StreamingProse(t[i])) && s.sequence == NextSequence(t)
    ensures InOrder(t + [s])
    ensures ThinkingText(t + [s]) == if s.body.Thinking? then ThinkingText(t) + s.body.thought.text else ThinkingText(t)
    ensures AnswerText(t + [s]) == if s.body.Text? then AnswerText(t) + s.body.answer.text else AnswerText(t)
    ensures RowKeys(Rows(t + [s])) == if Protected(s) then RowKeys(Rows(t)) else RowKeys(Rows(t)) + [RowKeyOf(s)]
  {
    Snoc(t, s);
    Snoc(Rows(t), s);
    SnocInOrder(t, s);
    hide ThinkingText, AnswerText, RowKeys, Filter, Rows, InOrder;
  }

  lemma SnocInOrder(t: Timeline, s: Segment)
    requires InOrder(t) && (forall i :: 0 <= i < |t| ==> !StreamingProse(t[i])) && s.sequence == NextSequence(t)
    ensures InOrder(t + [s])
  {
    var r := t + [s];
    hide StreamingProse;
    forall i, j | 0 <= i < j < |r| ensures Before(r[i], r[j]) {
      if j < |t| { assert Before(t[i], t[j]); } else if i < |t| - 1 { assert Before(t[i], t[|t| - 1]); }
    }
  }

  /** Replacing the body of one segment by one of the same kind and row key. */
  lemma ReplaceTail(t: Timeline, s: Segment)
    requires t != [] && Orderly(t) && s.sequence == t[|t| - 1].sequence && Protected(s) && Protected(t[|t| - 1])
    ensures var r := t[..|t| - 1] + [s]; Orderly(r) && Rows(r) == Rows(t)
  {
    var front, r := t[..|t| - 1], t[..|t| - 1] + [s];
    assert t == front + [t[|t| - 1]];
    Snoc(front, t[|t| - 1]);
    Snoc(front, s);
    forall i, j | 0 <= i < j < |r| ensures Before(r[i], r[j]) { assert Before(t[i], t[j]); }
  }

  /** Text appended to a tail of prose. */
  lemma TailGrows(t: Timeline, s: Segment, text: string)
    requires t != [] && Orderly(t) && s.sequence == t[|t| - 1].sequence
    requires var last := t[|t| - 1].body;
             || (last.Thinking? && s.body.Thinking? && s.body.thought.text == last.thought.text + text)
             || (last.Text? && s.body.Text? && s.body.answer.text == last.answer.text + text)
    ensures var r := t[..|t| - 1] + [s];
            && Orderly(r) && Rows(r) == Rows(t)
            && ThinkingText(r) == ThinkingText(t) + (if s.body.Thinking? then text else "")
            && AnswerText(r) == AnswerText(t) + (if s.body.Text? then text else "")
  {
    ReplaceTail(t, s);
    var front, last := t[..|t| - 1], t[|t| - 1];
    assert t == front + [last];
    hide *;
    Snoc(front, last);
    Snoc(front, s);
    if s.body.Thinking? {
      ConcatAssociative(ThinkingText(front), last.body.thought.text, text);
    } else {
      ConcatAssociative(AnswerText(front), last.body.answer.text, text);
    }
  }

  lemma {:induction false} ReplaceRow(t: Timeline, i: nat, s: Segment)
    requires i < |t| && t[i].body.Tool? && s.body.Tool? && RowKeyOf(s) == RowKeyOf(t[i])
    ensures ThinkingText(t[i := s]) == ThinkingText(t) && AnswerText(t[i := s]) == AnswerText(t)
    ensures RowKeys(Rows(t[i := s])) == RowKeys(Rows(t))
    decreases |t|
  {
    hide ThinkingText, AnswerText, RowKeys, Filter, Rows;
    var n := |t| - 1;
    var front, last := t[..n], t[n];
    assert t == front + [last];
    Snoc(front, last);
    Snoc(Rows(front), last);
    if i == n {
      assert t[i := s] == front + [s];
      Snoc(front, s);
      Snoc(Rows(front), s);
    } else {
      assert t[i := s] == front[i := s] + [last];
      ReplaceRow(front, i, s);
      Snoc(front[i := s], last);
      Snoc(Rows(front[i := s]), last);
    }
  }

  lemma ReplaceRowOrderly(t: Timeline, i: nat, s: Segment)
    requires Orderly(t) && i < |t| && t[i].body.Tool? && s.body.Tool? && RowKeyOf(s) == RowKeyOf(t[i])
    requires s.sequence == t[i].sequence
    ensures Orderly(t[i := s])
  {
    var r := t[i := s];
    ReplaceRow(t, i, s);
    RowKeysAt(Rows(t));
    RowKeysAt(Rows(r));
    forall a, b | 0 <= a < b < |r| ensures Before(r[a], r[b]) { assert Before(t[a], t[b]); }
  }

  lemma FindToolComplete(t: Timeline, toolCallId: string, row: Segment)
    requires row in t && ToolFor(row, toolCallId)
    ensures FindTool(t, toolCallId).Some?
  {
    var i :| 0 <= i < |t| && t[i] == row;
  }

  /** A call has a row exactly when its key is among the rows. */
  lemma FoundExactly(t: Timeline, toolCallId: string)
    ensures FindTool(t, toolCallId).Some? <==> ForCall(toolCallId) in RowKeys(Rows(t))
  {
    FilterSound(Not(Protected), t);
    RowKeysAt(Rows(t));
    if FindTool(t, toolCallId).Some? {
      var s := t[FindTool(t, toolCallId).value];
      assert s in Rows(t);
      var j :| 0 <= j < |Rows(t)| && Rows(t)[j] == s;
      assert RowKeys(Rows(t))[j] == ForCall(toolCallId);
    } else if ForCall(toolCallId) in RowKeys(Rows(t)) {
      var rows := Rows(t);
      var j :| 0 <= j < |rows| && RowKeys(rows)[j] == ForCall(toolCallId);
      FindToolComplete(t, toolCallId, rows[j]);
    }
  }

  /** One reducer step, on any orderly timeline. */
  lemma StepConserves(runId: string, t: Timeline, input: Input)
    requires Orderly(t)
    ensures var r := Reduce(runId, t, input);
            && Orderly(r)
            && ThinkingText(r) == ThinkingText(t) + (if input.ThinkingDelta? then input.text else "")
            && AnswerText(r) == AnswerText(t) + (if input.TextDelta? then input.text else "")
            && RowKeys(Rows(r)) == Newest(RowKeys(Rows(t)) + OpenedBy(RowKeys(Rows(t)), input))
  {
    hide ThinkingText, AnswerText, RowKeys, Filter, Rows, InOrder, Orderly, Bound, CloseTail;
    hide FindTool, StartTool, CompleteTool, AppendThinkingDelta, AppendTextDelta;
    NewestRows(t);
    match input
    case ThinkingDelta(text, at) => ThinkingStep(runId, t, text, at);
    case TextDelta(phase, text, at) => TextStep(runId, t, phase, text, at);
    case ToolStarted(call, name, args, at) => StartStep(runId, t, call, name, args, at);
    case ToolCompleted(call, output, failed, at) => CompleteStep(t, call, output, failed, at);
    case StatusNoted(row) =>
      var c := CloseTail(t, row.occurredAt);
      var s := Segment("status-" + runId + "-" + SequenceText(NextSequence(c)), NextSequence(c), Status(row));
      CloseKeeps(t, row.occurredAt);
      AppendInOrder(c, s);
      BoundInOrder(c + [s]);
    case Closed(at) => CloseKeeps(t, at);
  }

  lemma NewestRows(t: Timeline)
    requires Orderly(t)
    ensures Newest(RowKeys(Rows(t))) == RowKeys(Rows(t))
  {
    RowKeysAt(Rows(t));
  }

  lemma StartStep(runId: string, t: Timeline, call: string, name: string, args: Option<string>, at: string)
    requires Orderly(t)
    ensures var r := StartTool(runId, t, call, name, args, at);
            && Orderly(r) && ThinkingText(r) == ThinkingText(t) && AnswerText(r) == AnswerText(t)
            && RowKeys(Rows(r)) == Newest(RowKeys(Rows(t)) +
                                          OpenedBy(RowKeys(Rows(t)), ToolStarted(call, name, args, at)))
  {
    hide ThinkingText, AnswerText, RowKeys, Filter, Rows, InOrder, Orderly, Bound, CloseTail;
    hide LastToolSequence, RephaseAll;
    NewestRows(t);
    FoundExactly(t, call);
    match FindTool(t, call) {
      case Some(i) =>
        ReplaceRow(t, i, StartTool(runId, t, call, name, args, at)[i]);
        ReplaceRowOrderly(t, i, StartTool(runId, t, call, name, args, at)[i]);
      case None =>
        var c := CloseTail(t, at);
        var row := Segment("tool-" + runId + "-" + call, NextSequence(c),
                           Tool(ToolRow(call, name, args, None, false, Running, at, None)));
        CloseKeeps(t, at);
        AppendInOrder(c, row);
        NormalizeKeeps(c + [row]);
        BoundInOrder(NormalizePhases(c + [row]));
    }
  }

  lemma CompleteStep(t: Timeline, call: string, output: string, failed: bool, at: string)
    requires Orderly(t)
    ensures var r := CompleteTool(t, call, output, failed, at);
            && Orderly(r) && ThinkingText(r) == ThinkingText(t) && AnswerText(r) == AnswerText(t)
            && RowKeys(Rows(r)) == RowKeys(Rows(t))
  {
    hide ThinkingText, AnswerText, RowKeys, Filter, Rows, InOrder, Orderly, Bound, CloseTail;
    match FindTool(t, call) {
      case Some(i) =>
        ReplaceRow(t, i, CompleteTool(t, call, output, failed, at)[i]);
        ReplaceRowOrderly(t, i, CompleteTool(t, call, output, failed, at)[i]);
      case None =>
    }
  }

  lemma ThinkingStep(runId: string, t: Timeline, text: string, at: string)
    requires Orderly(t)
    ensures var r := AppendThinkingDelta(runId, t, text, at);
            Orderly(r) && ThinkingText(r) == ThinkingText(t) + text && AnswerText(r) == AnswerText(t)
            && RowKeys(Rows(r)) == RowKeys(Rows(t))
  {
    hide ThinkingText, AnswerText, RowKeys, Filter, Rows, InOrder, Orderly, Bound;
    NewestRows(t);
    if text != "" {
      if t != [] && t[|t| - 1].body.Thinking? && StreamingProse(t[|t| - 1]) {
        TailGrows(t, AppendThinkingDelta(runId, t, text, at)[|t| - 1], text);
      } else {
        var c := CloseTail(t, at);
        var n := NextSequence(c);
        var s := Segment("think-" + runId + "-" + SequenceText(n), n, Thinking(Opening(text, at)));
        CloseKeeps(t, at);
        AppendInOrder(c, s);
        BoundInOrder(c + [s]);
      }
    }
  }

  lemma TextStep(runId: string, t: Timeline, phase: Phase, text: string, at: string)
    requires Orderly(t)
    ensures var r := AppendTextDelta(runId, t, phase, text, at);
            Orderly(r) && AnswerText(r) == AnswerText(t) + text && ThinkingText(r) == ThinkingText(t)
            && RowKeys(Rows(r)) == RowKeys(Rows(t))
  {
    hide ThinkingText, AnswerText, RowKeys, Filter, Rows, InOrder, Orderly, Bound;
    NewestRows(t);
    if text != "" {
      if t != [] && t[|t| - 1].body.Text? && t[|t| - 1].body.phase == phase && StreamingProse(t[|t| - 1]) {
        TailGrows(t, AppendTextDelta(runId, t, phase, text, at)[|t| - 1], text);
      } else {
        var c := CloseTail(t, at);
        var n := NextSequence(c);
        var s := Segment("text-" + runId + "-" + SequenceText(n), n, Text(phase, Opening(text, at)));
        CloseKeeps(t, at);
        AppendInOrder(c, s);
        BoundInOrder(c + [s]);
      }
    }
  }

  /** Over any interleaving of inputs: no prose is lost or reordered, and the rows
      on display are the newest 512 ever opened. */
  lemma {:induction false} Conservation(runId: string, inputs: seq<Input>)
    ensures Orderly(Replay(runId, inputs))
    ensures ThinkingText(Replay(runId, inputs)) == ThinkingFed(inputs)
    ensures AnswerText(Replay(runId, inputs)) == AnswerFed(inputs)
    ensures RowKeys(Rows(Replay(runId, inputs))) == Newest(Opened(inputs))
  {
    if inputs != [] {
      var front, last := inputs[..|inputs| - 1], inputs[|inputs| - 1];
      Conservation(runId, front);
      StepConserves(runId, Replay(runId, front), last);
      NewestOfAppend(Opened(front), OpenedBy(Newest(Opened(front)), last));
    }
  }

  lemma NewestOfAppend<T>(s: seq<T>, added: seq<T>)
    ensures Newest(Newest(s) + added) == Newest(s + added)
  {
  }
}
