/** What the tool and status rows of an assistant timeline show: a board of 512 rows that
    knows nothing of prose, sequences, phases or sorting. */
module TimelineRows {
  import opened Results
  import opened Ordering
  import opened TimelineBound
  import opened AssistantTimeline

  datatype Row = CallRow(tool: ToolRow) | StatusNote(status: StatusRow) | NotARow

  type Board = seq<Row>

  function RowOf(s: Segment): Row {
    match s.body
    case Tool(tool) => CallRow(tool)
    case Status(status) => StatusNote(status)
    case _ => NotARow
  }

  function Display(t: Timeline): Board {
    seq(|t|, i requires 0 <= i < |t| => RowOf(t[i]))
  }

  predicate CallFor(row: Row, call: string) {
    row.CallRow? && row.tool.toolCallId == call
  }

  function FindCall(board: Board, call: string): (index: Option<nat>)
    ensures index.Some? ==> index.value < |board| && CallFor(board[index.value], call)
    ensures index.Some? ==> forall i :: 0 <= i < index.value ==> !CallFor(board[i], call)
    ensures index.None? ==> forall i :: 0 <= i < |board| ==> !CallFor(board[i], call)
  {
    if board == [] then None
    else
      match FindCall(board[..|board| - 1], call)
      case Some(i) => Some(i)
      case None => if CallFor(board[|board| - 1], call) then Some(|board| - 1) else None
  }

  /** A call restarted while on the board is renamed; a completed one shows its result;
      new rows push out the oldest. */
  function Shown(board: Board, input: Input): Board {
    match input
    case ToolStarted(call, name, args, at) =>
      (match FindCall(board, call)
       case Some(j) =>
         var row := board[j].tool;
         board[j := CallRow(row.(name := if name == "" then row.name else name,
                                 argumentsJson := if args.Some? then args else row.argumentsJson))]
       case None => Newest(board + [CallRow(ToolRow(call, name, args, None, false, Running, at, None))]))
    case ToolCompleted(call, output, failed, at) =>
      (match FindCall(board, call)
       case Some(j) =>
         board[j := CallRow(board[j].tool.(output := Some(output), isError := failed,
                                           status := if failed then Failed else Completed, completedAt := Some(at)))]
       case None => board)
    case StatusNoted(row) => Newest(board + [StatusNote(row)])
    case _ => board
  }

  function BoardOf(inputs: seq<Input>): Board {
    if inputs == [] then [] else Shown(BoardOf(inputs[..|inputs| - 1]), inputs[|inputs| - 1])
  }

  // ------------------------------------------------------- where a row is shown

  function RowIndex(t: Timeline, i: nat): nat
    requires i <= |t|
  {
    |Rows(t[..i])|
  }

  lemma RowsSplit(t: Timeline, i: nat)
    requires i < |t| && t[i].body.Tool?
    ensures Rows(t) == Rows(t[..i]) + [t[i]] + Rows(t[i + 1..])
  {
    assert t == t[..i] + ([t[i]] + t[i + 1..]);
    FilterConcat(Not(Protected), t[..i], [t[i]] + t[i + 1..]);
    FilterConcat(Not(Protected), [t[i]], t[i + 1..]);
    FilterSingle(Not(Protected), t[i]);
  }

  lemma DisplayAt(t: Timeline, i: nat, s: Segment)
    requires i < |t| && t[i].body.Tool? && s.body.Tool?
    ensures RowIndex(t, i) < |Rows(t)| && Display(Rows(t))[RowIndex(t, i)] == RowOf(t[i])
    ensures Display(Rows(t[i := s])) == Display(Rows(t))[RowIndex(t, i) := RowOf(s)]
  {
    RowsSplit(t, i);
    RowsSplit(t[i := s], i);
    assert t[i := s][..i] == t[..i] && t[i := s][i + 1..] == t[i + 1..];
    hide Rows, Filter;
    SpliceDisplay(Rows(t[..i]), t[i], s, Rows(t[i + 1..]));
  }

  lemma SpliceDisplay(front: Timeline, x: Segment, y: Segment, rest: Timeline)
    ensures Display(front + [x] + rest)[|front|] == RowOf(x)
    ensures Display(front + [y] + rest) == Display(front + [x] + rest)[|front| := RowOf(y)]
  {
    hide RowOf;
  }

  /** The first row of a call in the timeline is its first row on the board. */
  lemma SameFind(t: Timeline, call: string)
    ensures match FindTool(t, call)
            case Some(i) => FindCall(Display(Rows(t)), call) == Some(RowIndex(t, i))
            case None => FindCall(Display(Rows(t)), call) == None
  {
    match FindTool(t, call)
    case Some(i) =>
      DisplayAt(t, i, t[i]);
      FirstTool(t, call);
      NoneBefore(t[..i], call);
      RowsSplit(t, i);
      var board, j := Display(Rows(t)), RowIndex(t, i);
      assert CallFor(board[j], call);
      forall k | 0 <= k < j ensures !CallFor(board[k], call) {
        assert Rows(t)[k] == Rows(t[..i])[k];
        assert board[k] == Display(Rows(t[..i]))[k];
      }
    case None =>
      NoneBefore(t, call);
  }

  lemma {:induction false} FirstTool(t: Timeline, call: string)
    requires FindTool(t, call).Some?
    ensures forall k :: 0 <= k < FindTool(t, call).value ==> !ToolFor(t[k], call)
  {
    var front := t[..|t| - 1];
    if FindTool(front, call).Some? { FirstTool(front, call); }
  }

  lemma NoneBefore(t: Timeline, call: string)
    requires forall k :: 0 <= k < |t| ==> !ToolFor(t[k], call)
    ensures forall k :: 0 <= k < |Rows(t)| ==> !CallFor(Display(Rows(t))[k], call)
  {
    FilterSound(Not(Protected), t);
    forall k | 0 <= k < |Rows(t)| ensures !CallFor(Display(Rows(t))[k], call) {
      assert Rows(t)[k] in Rows(t);
      assert Rows(t)[k] in t;
    }
  }

  // -------------------------------------------------------------- the refinement

  lemma NewestDisplay(rows: Timeline, s: Segment)
    ensures Display(Newest(rows + [s])) == Newest(Display(rows) + [RowOf(s)])
    ensures |rows| <= MAX_SEGMENTS ==> Display(Newest(rows)) == Display(rows)
  {
  }

  /** One reducer step changes the board as its input says. */
  lemma StepShows(runId: string, t: Timeline, input: Input)
    requires Orderly(t)
    ensures Display(Rows(Reduce(runId, t, input))) == Shown(Display(Rows(t)), input)
  {
    match input
    case ThinkingDelta(text, at) => ThinkingShows(runId, t, text, at);
    case TextDelta(phase, text, at) => TextShows(runId, t, phase, text, at);
    case ToolStarted(call, name, args, at) => StartShows(runId, t, call, name, args, at);
    case ToolCompleted(call, output, failed, at) =>
      SameFind(t, call);
      var found := FindTool(t, call);
      if found.Some? {
        DisplayAt(t, found.value, CompleteTool(t, call, output, failed, at)[found.value]);
      }
    case StatusNoted(row) =>
      var c := CloseTail(t, row.occurredAt);
      var n := NextSequence(c);
      AppendShows(t, row.occurredAt, Segment("status-" + runId + "-" + SequenceText(n), n, Status(row)));
    case Closed(at) => CloseKeeps(t, at);
  }

  /** A segment appended behind the closed tail. */
  lemma AppendShows(t: Timeline, at: string, s: Segment)
    requires Orderly(t) && s.sequence == NextSequence(CloseTail(t, at))
    ensures var r := BoundAssistantTimeline(CloseTail(t, at) + [s]);
            Display(Rows(r)) == if Protected(s) then Display(Rows(t)) else Newest(Display(Rows(t)) + [RowOf(s)])
  {
    var c := CloseTail(t, at);
    CloseKeeps(t, at);
    AppendInOrder(c, s);
    BoundInOrder(c + [s]);
    Snoc(c, s);
    NewestDisplay(Rows(t), s);
    assert |Rows(t)| <= MAX_SEGMENTS;
    hide *;
  }

  lemma ThinkingShows(runId: string, t: Timeline, text: string, at: string)
    requires Orderly(t)
    ensures Display(Rows(AppendThinkingDelta(runId, t, text, at))) == Display(Rows(t))
  {
    hide Rows, Display, Orderly, BoundAssistantTimeline;
    if text != "" {
      if t != [] && t[|t| - 1].body.Thinking? && StreamingProse(t[|t| - 1]) {
        ReplaceTail(t, AppendThinkingDelta(runId, t, text, at)[|t| - 1]);
      } else {
        var n := NextSequence(CloseTail(t, at));
        AppendShows(t, at, Segment("think-" + runId + "-" + SequenceText(n), n, Thinking(Opening(text, at))));
      }
    }
  }

  lemma TextShows(runId: string, t: Timeline, phase: Phase, text: string, at: string)
    requires Orderly(t)
    ensures Display(Rows(AppendTextDelta(runId, t, phase, text, at))) == Display(Rows(t))
  {
    hide Rows, Display, Orderly, BoundAssistantTimeline;
    if text != "" {
      if t != [] && t[|t| - 1].body.Text? && t[|t| - 1].body.phase == phase && StreamingProse(t[|t| - 1]) {
        ReplaceTail(t, AppendTextDelta(runId, t, phase, text, at)[|t| - 1]);
      } else {
        var n := NextSequence(CloseTail(t, at));
        AppendShows(t, at, Segment("text-" + runId + "-" + SequenceText(n), n, Text(phase, Opening(text, at))));
      }
    }
  }

  lemma StartShows(runId: string, t: Timeline, call: string, name: string, args: Option<string>, at: string)
    requires Orderly(t)
    ensures Display(Rows(StartTool(runId, t, call, name, args, at)))
         == Shown(Display(Rows(t)), ToolStarted(call, name, args, at))
  {
    SameFind(t, call);
    var found := FindTool(t, call);
    if found.Some? {
      DisplayAt(t, found.value, StartTool(runId, t, call, name, args, at)[found.value]);
    } else {
      var c := CloseTail(t, at);
      var row := ToolRow(call, name, args, None, false, Running, at, None);
      var s := Segment("tool-" + runId + "-" + call, NextSequence(c), Tool(row));
      CloseKeeps(t, at);
      AppendInOrder(c, s);
      NormalizeKeeps(c + [s]);
      BoundInOrder(NormalizePhases(c + [s]));
      Snoc(c, s);
      NewestDisplay(Rows(t), s);
      hide Rows, Display, BoundAssistantTimeline, NormalizePhases, Orderly, CloseTail;
    }
  }

  /** Over any inputs, the rows of the timeline are the board: every tool row shows its
      name, arguments, result and times, every status its text, in order. */
  lemma {:induction false} RowsAreBoard(runId: string, inputs: seq<Input>)
    ensures Display(Rows(Replay(runId, inputs))) == BoardOf(inputs)
  {
    if inputs != [] {
      var front := inputs[..|inputs| - 1];
      RowsAreBoard(runId, front);
      Conservation(runId, front);
      StepShows(runId, Replay(runId, front), inputs[|inputs| - 1]);
      hide Reduce, Shown, Rows, Display;
    }
  }

  /** A row is running exactly while it has no result, and failed exactly when that result
      is an error; no call has two rows. */
  ghost predicate SoundBoard(board: Board) {
    && (forall i :: 0 <= i < |board| && board[i].CallRow? ==>
          var row := board[i].tool;
          && (row.status.Running? <==> row.output.None?) && (row.output.None? <==> row.completedAt.None?)
          && (row.isError <==> row.status.Failed?))
    && (forall i, j :: 0 <= i < j < |board| && board[i].CallRow? ==> !CallFor(board[j], board[i].tool.toolCallId))
  }

  lemma NewestSound(board: Board)
    requires SoundBoard(board)
    ensures SoundBoard(Newest(board))
  {
    hide CallFor;
  }

  lemma {:induction false} BoardIsSound(inputs: seq<Input>)
    ensures SoundBoard(BoardOf(inputs)) && |BoardOf(inputs)| <= MAX_SEGMENTS
  {
    if inputs != [] {
      var front, last := BoardOf(inputs[..|inputs| - 1]), inputs[|inputs| - 1];
      BoardIsSound(inputs[..|inputs| - 1]);
      match last
      case ToolStarted(call, name, args, at) =>
        if FindCall(front, call).None? {
          NewestSound(front + [CallRow(ToolRow(call, name, args, None, false, Running, at, None))]);
        }
      case StatusNoted(row) => NewestSound(front + [StatusNote(row)]);
      case _ =>
    }
  }

  /** A call that is started again while it is on the board keeps its place, its result and its
      times; a name or arguments are replaced only by new ones that are given. */
  lemma RestartedRow(board: Board, j: nat, call: string, name: string, args: Option<string>, at: string)
    requires SoundBoard(board) && j < |board| && board[j].CallRow? && board[j].tool.toolCallId == call
    ensures var r := Shown(board, ToolStarted(call, name, args, at));
            && |r| == |board| && (forall i :: 0 <= i < |board| && i != j ==> r[i] == board[i])
            && r[j].CallRow?
            && r[j].tool == board[j].tool.(name := r[j].tool.name, argumentsJson := r[j].tool.argumentsJson)
            && (name != "" ==> r[j].tool.name == name) && (name == "" ==> r[j].tool.name == board[j].tool.name)
            && (args.Some? ==> r[j].tool.argumentsJson == args)
            && (args.None? ==> r[j].tool.argumentsJson == board[j].tool.argumentsJson)
  {
    assert CallFor(board[j], call);
    assert FindCall(board, call) == Some(j);
  }

  /** A result goes to the row of its call, and to no other; without such a row it is dropped. */
  lemma CompletedRow(board: Board, call: string, output: string, failed: bool, at: string)
    requires SoundBoard(board)
    ensures var r := Shown(board, ToolCompleted(call, output, failed, at));
            && |r| == |board|
            && forall i :: 0 <= i < |board| ==>
                 if board[i].CallRow? && board[i].tool.toolCallId == call then
                   r[i].CallRow? && r[i].tool.output == Some(output) && r[i].tool.completedAt == Some(at)
                   && (r[i].tool.isError <==> failed) && r[i].tool.name == board[i].tool.name
                   && r[i].tool.argumentsJson == board[i].tool.argumentsJson
                   && r[i].tool.startedAt == board[i].tool.startedAt && r[i].tool.toolCallId == call
                 else r[i] == board[i]
  {
    forall i | 0 <= i < |board| ensures CallFor(board[i], call) ==> FindCall(board, call) == Some(i) {
    }
  }

  /** A new call or a status is the last row; a 513th pushes out the first. */
  lemma NewRow(board: Board, input: Input)
    requires |board| <= 512
    requires input.StatusNoted? ||
             (input.ToolStarted? &&
              forall i :: 0 <= i < |board| && board[i].CallRow? ==> board[i].tool.toolCallId != input.toolCallId)
    ensures var r := Shown(board, input);
            && r != [] && r[..|r| - 1] == (if |board| < 512 then board else board[1..])
            && (input.StatusNoted? ==> r[|r| - 1] == StatusNote(input.row))
            && (input.ToolStarted? ==>
                  r[|r| - 1] == CallRow(ToolRow(input.toolCallId, input.name, input.argumentsJson, None, false, Running,
                                                input.at, None)))
  {
    if input.ToolStarted? { assert FindCall(board, input.toolCallId).None?; }
  }
}
