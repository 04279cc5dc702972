/** The prose of an assistant timeline: which segments a run of deltas makes, whatever the
    pieces it came in. */
module ProseSegments {
  import opened Results
  import opened Ordering
  import opened TimelineBound
  import opened AssistantTimeline
  import LateText

  // ------------------------------------------------------------- the story

  datatype Voice = Thought | Said(phase: Phase)

  datatype Told = Told(voice: Voice, passage: Passage)

  type Story = seq<Told>

  /** The last passage is open and of this voice. */
  predicate Speaking(story: Story, voice: Voice) {
    story != [] && story[|story| - 1].voice == voice && story[|story| - 1].passage.streaming
  }

  /** An open last passage ends. */
  function Ended(story: Story, at: string): Story {
    if story == [] || !story[|story| - 1].passage.streaming then story
    else
      var last := story[|story| - 1];
      story[..|story| - 1]
      + [last.(passage := last.passage.(streaming := false,
                                        completedAt := if at == "" then last.passage.completedAt else Some(at)))]
  }

  /** Text goes on with an open passage of its voice, and otherwise opens one. */
  function Heard(story: Story, voice: Voice, text: string, at: string): Story {
    if text == "" then story
    else if Speaking(story, voice) then
      var last := story[|story| - 1];
      story[..|story| - 1] + [last.(passage := last.passage.(text := last.passage.text + text))]
    else Ended(story, at) + [Told(voice, Passage(text, true, at, None))]
  }

  /** What was said before a tool was no answer yet. */
  function NoAnswer(told: Told): Told {
    if told.voice == Said(FinalAnswer) then told.(voice := Said(Commentary)) else told
  }

  function NoAnswers(story: Story): Story {
    if story == [] then [] else NoAnswers(story[..|story| - 1]) + [NoAnswer(story[|story| - 1])]
  }

  function Next(story: Story, isNew: bool, input: Input): Story {
    match input
    case ThinkingDelta(text, at) => Heard(story, Thought, text, at)
    case TextDelta(phase, text, at) => Heard(story, Said(phase), text, at)
    case ToolStarted(_, _, _, at) => if isNew then NoAnswers(Ended(story, at)) else story
    case StatusNoted(row) => Ended(story, row.occurredAt)
    case Closed(at) => Ended(story, at)
    case ToolCompleted(_, _, _, _) => story
  }

  /** The input starts a call that is not among the newest 512 rows. */
  predicate StartsNew(before: seq<Input>, input: Input) {
    input.ToolStarted? && ForCall(input.toolCallId) !in Newest(Opened(before))
  }

  /** The story that inputs tell. */
  function StoryOf(inputs: seq<Input>): Story {
    if inputs == [] then []
    else
      var before := inputs[..|inputs| - 1];
      Next(StoryOf(before), StartsNew(before, inputs[|inputs| - 1]), inputs[|inputs| - 1])
  }

  // --------------------------------------------------- what a timeline tells

  function ToldBy(s: Segment): Story {
    match s.body
    case Thinking(p) => [Told(Thought, p)]
    case Text(phase, p) => [Told(Said(phase), p)]
    case _ => []
  }

  function ProseOf(t: Timeline): Story {
    if t == [] then [] else ProseOf(t[..|t| - 1]) + ToldBy(t[|t| - 1])
  }

  lemma ProseSnoc(t: Timeline, s: Segment)
    ensures ProseOf(t + [s]) == ProseOf(t) + ToldBy(s)
  {
    assert (t + [s])[..|t|] == t;
  }

  lemma {:induction false} ProseLivesInProse(t: Timeline)
    ensures ProseOf(Filter(Protected, t)) == ProseOf(t)
    decreases |t|
  {
    if t != [] {
      var front, last := t[..|t| - 1], t[|t| - 1];
      SplitLast(t);
      ProseLivesInProse(front);
      Snoc(front, last);
      ProseSnoc(Filter(Protected, front), last);
    }
  }

  /** Bounding changes nothing that is told. */
  lemma BoundTells(t: Timeline)
    requires InOrder(t)
    ensures ProseOf(BoundAssistantTimeline(t)) == ProseOf(t)
  {
    var surplus := |Rows(t)| - MAX_SEGMENTS;
    var n := if surplus > 0 then surplus else 0;
    SegmentLeqPreorder();
    InOrderIsSorted(t);
    BoundDropsOldest(Protected, SegmentLeq, t);
    DropOldestParts(Protected, t, n);
    hide Filter, DropOldest, Bound, InOrder;
    ProseLivesInProse(t);
    ProseLivesInProse(DropOldest(Protected, t, n));
  }

  /** Only the tail can still be open. */
  lemma {:induction false} OnlyClosed(t: Timeline)
    requires forall i :: 0 <= i < |t| ==> !StreamingProse(t[i])
    ensures forall i :: 0 <= i < |ProseOf(t)| ==> !ProseOf(t)[i].passage.streaming
  {
    if t != [] { OnlyClosed(t[..|t| - 1]); }
  }

  lemma CloseTells(t: Timeline, at: string)
    requires Orderly(t)
    ensures ProseOf(CloseTail(t, at)) == Ended(ProseOf(t), at)
  {
    if t != [] {
      var front, last := t[..|t| - 1], t[|t| - 1];
      SplitLast(t);
      OnlyClosed(front);
      ProseSnoc(front, last);
      ProseSnoc(front, CloseSegment(last, at));
      assert CloseTail(t, at) == front + [CloseSegment(last, at)];
      hide ProseOf, Orderly, CloseTail;
    }
  }

  lemma {:induction false} LastToolBelow(t: Timeline, n: int)
    requires forall i :: 0 <= i < |t| ==> t[i].sequence < n
    ensures LastToolSequence(t).Some? ==> LastToolSequence(t).value < n
  {
    if t != [] { LastToolBelow(t[..|t| - 1], n); }
  }

  lemma {:induction false} RephasedTells(t: Timeline, last: int)
    requires forall i :: 0 <= i < |t| ==> t[i].sequence < last
    ensures ProseOf(RephaseAll(t, last)) == NoAnswers(ProseOf(t))
  {
    if t != [] {
      var front, s := t[..|t| - 1], t[|t| - 1];
      RephasedTells(front, last);
      ProseSnoc(RephaseAll(front, last), Rephased(s, last));
      NoAnswersMore(ProseOf(front), ToldBy(s));
    }
  }

  lemma NoAnswersMore(a: Story, b: Story)
    requires |b| <= 1
    ensures NoAnswers(a + b) == NoAnswers(a) + NoAnswers(b)
  {
    if b == [] {
      assert a + b == a;
    } else {
      assert (a + b)[..|a|] == a;
      assert b[..0] == [];
    }
  }

  // --------------------------------------------------------- the refinement

  /** A segment behind the closed tail. */
  lemma AppendTells(t: Timeline, at: string, s: Segment)
    requires Orderly(t) && s.sequence == NextSequence(CloseTail(t, at))
    ensures ProseOf(BoundAssistantTimeline(CloseTail(t, at) + [s])) == Ended(ProseOf(t), at) + ToldBy(s)
  {
    var c := CloseTail(t, at);
    CloseKeeps(t, at);
    CloseTells(t, at);
    AppendInOrder(c, s);
    BoundTells(c + [s]);
    ProseSnoc(c, s);
    hide *;
  }

  /** Whether the tail is open is whether the last passage is. */
  lemma TailSpeaks(t: Timeline, voice: Voice)
    requires Orderly(t)
    ensures Speaking(ProseOf(t), voice) <==>
            t != [] && ToldBy(t[|t| - 1]) != [] && ToldBy(t[|t| - 1])[0].voice == voice && StreamingProse(t[|t| - 1])
  {
    if t != [] {
      var front, last := t[..|t| - 1], t[|t| - 1];
      OnlyClosed(front);
      SplitLast(t);
      ProseSnoc(front, last);
      hide ProseOf, Orderly;
    }
  }

  lemma GrownTells(t: Timeline, s: Segment, text: string)
    requires t != [] && ToldBy(t[|t| - 1]) != []
    requires var told := ToldBy(t[|t| - 1])[0];
             ToldBy(s) == [told.(passage := told.passage.(text := told.passage.text + text))]
    ensures var told := ProseOf(t)[|ProseOf(t)| - 1];
            ProseOf(t[..|t| - 1] + [s])
            == ProseOf(t)[..|ProseOf(t)| - 1] + [told.(passage := told.passage.(text := told.passage.text + text))]
  {
    var front, last := t[..|t| - 1], t[|t| - 1];
    SplitLast(t);
    ProseSnoc(front, last);
    ProseSnoc(front, s);
    hide ProseOf;
  }

  lemma ThinkingTells(runId: string, t: Timeline, text: string, at: string)
    requires Orderly(t)
    ensures ProseOf(AppendThinkingDelta(runId, t, text, at)) == Heard(ProseOf(t), Thought, text, at)
  {
    hide ProseOf, Orderly, BoundAssistantTimeline, CloseTail;
    TailSpeaks(t, Thought);
    if text != "" {
      if t != [] && t[|t| - 1].body.Thinking? && StreamingProse(t[|t| - 1]) {
        GrownTells(t, AppendThinkingDelta(runId, t, text, at)[|t| - 1], text);
      } else {
        var n := NextSequence(CloseTail(t, at));
        AppendTells(t, at, Segment("think-" + runId + "-" + SequenceText(n), n, Thinking(Opening(text, at))));
      }
    }
  }

  lemma TextTells(runId: string, t: Timeline, phase: Phase, text: string, at: string)
    requires Orderly(t)
    ensures ProseOf(AppendTextDelta(runId, t, phase, text, at)) == Heard(ProseOf(t), Said(phase), text, at)
  {
    hide ProseOf, Orderly, BoundAssistantTimeline, CloseTail;
    TailSpeaks(t, Said(phase));
    if text != "" {
      if t != [] && t[|t| - 1].body.Text? && t[|t| - 1].body.phase == phase && StreamingProse(t[|t| - 1]) {
        GrownTells(t, AppendTextDelta(runId, t, phase, text, at)[|t| - 1], text);
      } else {
        var n := NextSequence(CloseTail(t, at));
        AppendTells(t, at, Segment("text-" + runId + "-" + SequenceText(n), n, Text(phase, Opening(text, at))));
      }
    }
  }

  lemma {:induction false} RowReplaced(t: Timeline, i: nat, s: Segment)
    requires i < |t| && ToldBy(t[i]) == [] && ToldBy(s) == []
    ensures ProseOf(t[i := s]) == ProseOf(t)
    decreases |t|
  {
    var n := |t| - 1;
    if i < n {
      RowReplaced(t[..n], i, s);
      assert t[i := s][..n] == t[..n][i := s];
    } else {
      assert t[i := s][..n] == t[..n];
    }
  }

  lemma AllBelowNew(c: Timeline, row: Segment)
    requires SortedBy(Before, c) && row.sequence == NextSequence(c)
    ensures forall i :: 0 <= i < |c| ==> c[i].sequence < row.sequence
  {
    forall i | 0 <= i < |c| ensures c[i].sequence < row.sequence {
      if i < |c| - 1 { assert Before(c[i], c[|c| - 1]); }
    }
  }

  /** The new row is the last tool: all that was said before is no answer. */
  lemma NormalizedTells(c: Timeline, row: Segment)
    requires SortedBy(Before, c) && row.sequence == NextSequence(c) && row.body.Tool?
    ensures ProseOf(NormalizePhases(c + [row])) == NoAnswers(ProseOf(c))
  {
    AllBelowNew(c, row);
    LastToolBelow(c, row.sequence);
    assert (c + [row])[..|c|] == c;
    assert LastToolSequence(c + [row]) == Some(row.sequence);
    assert RephaseAll(c + [row], row.sequence) == RephaseAll(c, row.sequence) + [row];
    RephasedTells(c, row.sequence);
    ProseSnoc(RephaseAll(c, row.sequence), row);
  }

  lemma StartTells(runId: string, t: Timeline, call: string, name: string, args: Option<string>, at: string)
    requires Orderly(t)
    ensures ProseOf(StartTool(runId, t, call, name, args, at)) ==
            if FindTool(t, call).Some? then ProseOf(t) else NoAnswers(Ended(ProseOf(t), at))
  {
    hide ProseOf, Orderly, BoundAssistantTimeline, CloseTail, NormalizePhases, NoAnswers, InOrder;
    match FindTool(t, call) {
      case Some(i) => RowReplaced(t, i, StartTool(runId, t, call, name, args, at)[i]);
      case None =>
        var c := CloseTail(t, at);
        var row := Segment("tool-" + runId + "-" + call, NextSequence(c),
                           Tool(ToolRow(call, name, args, None, false, Running, at, None)));
        CloseKeeps(t, at);
        CloseTells(t, at);
        AppendInOrder(c, row);
        NormalizeKeeps(c + [row]);
        BoundTells(NormalizePhases(c + [row]));
        assert SortedBy(Before, c) by { OrderlySorted(c); }
        NormalizedTells(c, row);
    }
  }

  lemma OrderlySorted(t: Timeline)
    requires Orderly(t)
    ensures SortedBy(Before, t)
  {
  }

  lemma CompleteTells(t: Timeline, call: string, output: string, failed: bool, at: string)
    ensures ProseOf(CompleteTool(t, call, output, failed, at)) == ProseOf(t)
  {
    hide ProseOf;
    match FindTool(t, call) {
      case Some(i) => RowReplaced(t, i, CompleteTool(t, call, output, failed, at)[i]);
      case None =>
    }
  }

  lemma StepTells(runId: string, t: Timeline, input: Input)
    requires Orderly(t)
    ensures ProseOf(Reduce(runId, t, input)) ==
            Next(ProseOf(t), input.ToolStarted? && FindTool(t, input.toolCallId).None?, input)
  {
    hide ProseOf, Orderly, BoundAssistantTimeline, CloseTail, NoAnswers, Heard, Ended;
    hide FindTool, StartTool, CompleteTool, AppendThinkingDelta, AppendTextDelta;
    match input
    case ThinkingDelta(text, at) => ThinkingTells(runId, t, text, at);
    case TextDelta(phase, text, at) => TextTells(runId, t, phase, text, at);
    case ToolStarted(call, name, args, at) => StartTells(runId, t, call, name, args, at);
    case ToolCompleted(call, output, failed, at) => CompleteTells(t, call, output, failed, at);
    case StatusNoted(row) =>
      var n := NextSequence(CloseTail(t, row.occurredAt));
      AppendTells(t, row.occurredAt, Segment("status-" + runId + "-" + SequenceText(n), n, Status(row)));
    case Closed(at) => CloseTells(t, at);
  }

  /** Over any inputs the prose of the timeline is the story they tell. */
  lemma {:induction false} ProseIsStory(runId: string, inputs: seq<Input>)
    ensures ProseOf(Replay(runId, inputs)) == StoryOf(inputs)
  {
    if inputs != [] {
      var front, last := inputs[..|inputs| - 1], inputs[|inputs| - 1];
      ProseIsStory(runId, front);
      Conservation(runId, front);
      StepTells(runId, Replay(runId, front), last);
      if last.ToolStarted? { FoundExactly(Replay(runId, front), last.toolCallId); }
      hide ProseOf, Reduce, Next, RowKeys, Rows, Opened, FindTool;
    }
  }

  // ------------------------------------------------------ pieces of one delta

  /** A delta of this voice. */
  predicate DeltaOf(input: Input, voice: Voice) {
    match input
    case ThinkingDelta(_, _) => voice == Thought
    case TextDelta(phase, _, _) => voice == Said(phase)
    case _ => false
  }

  function Delta(voice: Voice, text: string, at: string): (input: Input)
    ensures DeltaOf(input, voice)
  {
    match voice
    case Thought => ThinkingDelta(text, at)
    case Said(phase) => TextDelta(phase, text, at)
  }

  lemma ThinkingJoins(runId: string, t: Timeline, a: string, b: string, at: string, later: string)
    requires Orderly(t) && a != "" && b != ""
    ensures AppendThinkingDelta(runId, AppendThinkingDelta(runId, t, a, at), b, later)
         == AppendThinkingDelta(runId, t, a + b, at)
  {
    hide Orderly, BoundAssistantTimeline, CloseTail, Rows;
    if t != [] && t[|t| - 1].body.Thinking? && StreamingProse(t[|t| - 1]) {
      ConcatAssociative(t[|t| - 1].body.thought.text, a, b);
    } else {
      var n := NextSequence(CloseTail(t, at));
      var id := "think-" + runId + "-" + SequenceText(n);
      NothingEvicted(t, at, Segment(id, n, Thinking(Opening(a, at))));
      NothingEvicted(t, at, Segment(id, n, Thinking(Opening(a + b, at))));
    }
  }

  lemma TextJoins(runId: string, t: Timeline, phase: Phase, a: string, b: string, at: string, later: string)
    requires Orderly(t) && a != "" && b != ""
    ensures AppendTextDelta(runId, AppendTextDelta(runId, t, phase, a, at), phase, b, later)
         == AppendTextDelta(runId, t, phase, a + b, at)
  {
    hide Orderly, BoundAssistantTimeline, CloseTail, Rows;
    if t != [] && t[|t| - 1].body.Text? && t[|t| - 1].body.phase == phase && StreamingProse(t[|t| - 1]) {
      ConcatAssociative(t[|t| - 1].body.answer.text, a, b);
    } else {
      var n := NextSequence(CloseTail(t, at));
      var id := "text-" + runId + "-" + SequenceText(n);
      NothingEvicted(t, at, Segment(id, n, Text(phase, Opening(a, at))));
      NothingEvicted(t, at, Segment(id, n, Text(phase, Opening(a + b, at))));
    }
  }

  /** New prose adds no row, so the window is not full. */
  lemma NothingEvicted(t: Timeline, at: string, s: Segment)
    requires Orderly(t) && Protected(s)
    ensures BoundAssistantTimeline(CloseTail(t, at) + [s]) == CloseTail(t, at) + [s]
  {
    CloseKeeps(t, at);
    Snoc(CloseTail(t, at), s);
    LateText.FitsWindow(CloseTail(t, at) + [s]);
    hide BoundAssistantTimeline, CloseTail, Rows;
  }

  lemma ReplayMore(runId: string, front: seq<Input>, input: Input)
    ensures Replay(runId, front + [input]) == Reduce(runId, Replay(runId, front), input)
  {
    assert (front + [input])[..|front|] == front;
  }

  /** It does not matter in which pieces a delta comes: cut in two at any place of any run, it
      makes the same timeline as in one piece at the time of the first. */
  lemma {:induction false} ChunkingIsInvisible(runId: string, front: seq<Input>, voice: Voice, a: string, b: string,
                                               at: string, later: string, rest: seq<Input>)
    requires a != "" && b != ""
    ensures Replay(runId, front + [Delta(voice, a, at), Delta(voice, b, later)] + rest)
         == Replay(runId, front + [Delta(voice, a + b, at)] + rest)
    decreases |rest|
  {
    var two, one := front + [Delta(voice, a, at), Delta(voice, b, later)], front + [Delta(voice, a + b, at)];
    if rest == [] {
      Conservation(runId, front);
      hide Reduce, Replay;
      assert two + rest == (front + [Delta(voice, a, at)]) + [Delta(voice, b, later)] && one + rest == one;
      ReplayMore(runId, front, Delta(voice, a, at));
      ReplayMore(runId, front + [Delta(voice, a, at)], Delta(voice, b, later));
      ReplayMore(runId, front, Delta(voice, a + b, at));
      DeltaJoins(runId, Replay(runId, front), voice, a, b, at, later);
    } else {
      var early, last := rest[..|rest| - 1], rest[|rest| - 1];
      assert two + rest == (two + early) + [last] && one + rest == (one + early) + [last];
      hide Reduce, Replay;
      ChunkingIsInvisible(runId, front, voice, a, b, at, later, early);
      ReplayMore(runId, two + early, last);
      ReplayMore(runId, one + early, last);
    }
  }

  lemma DeltaJoins(runId: string, t: Timeline, voice: Voice, a: string, b: string, at: string, later: string)
    requires Orderly(t) && a != "" && b != ""
    ensures Reduce(runId, Reduce(runId, t, Delta(voice, a, at)), Delta(voice, b, later))
         == Reduce(runId, t, Delta(voice, a + b, at))
  {
    hide Orderly, AppendThinkingDelta, AppendTextDelta;
    match voice
    case Thought => ThinkingJoins(runId, t, a, b, at, later);
    case Said(phase) => TextJoins(runId, t, phase, a, b, at, later);
  }

  // ------------------------------------------------------- groups of deltas

  function TextIn(input: Input): string {
    match input
    case ThinkingDelta(text, _) => text
    case TextDelta(_, text, _) => text
    case _ => ""
  }

  function TimeIn(input: Input): string {
    match input
    case ThinkingDelta(_, at) => at
    case TextDelta(_, _, at) => at
    case _ => ""
  }

  function TextsIn(block: seq<Input>): string {
    if block == [] then "" else TextsIn(block[..|block| - 1]) + TextIn(block[|block| - 1])
  }

  lemma StoryMore(inputs: seq<Input>, input: Input)
    ensures StoryOf(inputs + [input]) == Next(StoryOf(inputs), StartsNew(inputs, input), input)
  {
    assert (inputs + [input])[..|inputs|] == inputs;
  }

  lemma TextsMore(block: seq<Input>, input: Input)
    ensures TextsIn(block + [input]) == TextsIn(block) + TextIn(input)
  {
    assert (block + [input])[..|block|] == block;
  }

  lemma NextHeard(story: Story, isNew: bool, input: Input, voice: Voice)
    requires DeltaOf(input, voice)
    ensures Next(story, isNew, input) == Heard(story, voice, TextIn(input), TimeIn(input))
  {
  }

  lemma HeardTwice(story: Story, voice: Voice, a: string, b: string, at: string, later: string)
    requires a != "" && b != ""
    ensures Heard(Heard(story, voice, a, at), voice, b, later) == Heard(story, voice, a + b, at)
  {
    hide Ended;
    if Speaking(story, voice) { ConcatAssociative(story[|story| - 1].passage.text, a, b); }
  }

  ghost predicate BlockOf(block: seq<Input>, voice: Voice) {
    block != [] && forall i :: 0 <= i < |block| ==> DeltaOf(block[i], voice) && TextIn(block[i]) != ""
  }

  lemma LastHeard(inputs: seq<Input>, front: seq<Input>, last: Input, voice: Voice)
    requires DeltaOf(last, voice)
    ensures StoryOf(inputs + (front + [last])) == Heard(StoryOf(inputs + front), voice, TextIn(last), TimeIn(last))
  {
    hide *;
    ConcatAssociative(inputs, front, [last]);
    StoryMore(inputs + front, last);
    NextHeard(StoryOf(inputs + front), StartsNew(inputs + front, last), last, voice);
  }

  lemma OneHeard(inputs: seq<Input>, only: Input, voice: Voice)
    requires DeltaOf(only, voice)
    ensures TextsIn([only]) == TextIn(only)
    ensures StoryOf(inputs + [only]) == Heard(StoryOf(inputs), voice, TextIn(only), TimeIn(only))
  {
    TextsMore([], only);
    assert [] + [only] == [only];
    assert inputs + [] == inputs;
    LastHeard(inputs, [], only, voice);
    hide Heard, StoryOf, TextIn;
  }

  lemma {:induction false} BlockHeard(inputs: seq<Input>, block: seq<Input>, voice: Voice)
    requires BlockOf(block, voice)
    ensures TextsIn(block) != ""
    ensures StoryOf(inputs + block) == Heard(StoryOf(inputs), voice, TextsIn(block), TimeIn(block[0]))
    decreases |block|
  {
    var front, last := block[..|block| - 1], block[|block| - 1];
    assert DeltaOf(last, voice) && TextIn(last) != "";
    if front == [] {
      assert block == [last];
      OneHeard(inputs, last, voice);
    } else {
      assert BlockOf(front, voice) && front[0] == block[0];
      SplitLast(block);
      hide *;
      BlockHeard(inputs, front, voice);
      TextsMore(front, last);
      LastHeard(inputs, front, last, voice);
      HeardTwice(StoryOf(inputs), voice, TextsIn(front), TextIn(last), TimeIn(front[0]), TimeIn(last));
    }
  }

  /** Deltas of one voice that follow one another, each with some text, make one passage: with
      all their text, open, from the time of the first. What was open before ends at that time,
      unless it is of this voice: then it goes on. */
  lemma OnePassage(inputs: seq<Input>, block: seq<Input>, voice: Voice)
    requires BlockOf(block, voice)
    ensures var before := StoryOf(inputs);
            StoryOf(inputs + block) ==
            if Speaking(before, voice) then
              var last := before[|before| - 1];
              before[..|before| - 1] + [last.(passage := last.passage.(text := last.passage.text + TextsIn(block)))]
            else Ended(before, TimeIn(block[0])) + [Told(voice, Passage(TextsIn(block), true, TimeIn(block[0]), None))]
  {
    BlockHeard(inputs, block, voice);
    hide StoryOf, TextsIn, Ended;
  }

  // -------------------------------------------------------------------- names

  /** A segment is named after its kind, its run and its number, a tool after its call. */
  predicate Named(runId: string, s: Segment) {
    match s.body
    case Thinking(_) => s.id == "think-" + runId + "-" + SequenceText(s.sequence)
    case Text(_, _) => s.id == "text-" + runId + "-" + SequenceText(s.sequence)
    case Tool(row) => s.id == "tool-" + runId + "-" + row.toolCallId
    case Status(_) => s.id == "status-" + runId + "-" + SequenceText(s.sequence)
  }

  ghost predicate AllNamed(runId: string, t: Timeline) {
    forall i :: 0 <= i < |t| ==> Named(runId, t[i]) && t[i].sequence >= 0
  }

  lemma BoundNamed(runId: string, t: Timeline)
    requires AllNamed(runId, t)
    ensures AllNamed(runId, BoundAssistantTimeline(t))
  {
    var r := BoundAssistantTimeline(t);
    hide Named;
    FilterSound(Protected, t);
    FilterSound(Not(Protected), t);
    var kept := Filter(Protected, t) + Newest(Filter(Not(Protected), t));
    SortPermutes(SegmentLeq, kept);
    forall i | 0 <= i < |r| ensures Named(runId, r[i]) && r[i].sequence >= 0 {
      if r != t {
        assert r[i] in multiset(SortBy(SegmentLeq, kept));
        assert r[i] in kept;
        assert r[i] in t;
      }
    }
  }

  lemma AppendNamed(runId: string, t: Timeline, at: string, s: Segment)
    requires AllNamed(runId, t) && Named(runId, s) && s.sequence >= 0
    ensures AllNamed(runId, CloseTail(t, at) + [s])
    ensures AllNamed(runId, BoundAssistantTimeline(CloseTail(t, at) + [s]))
  {
    hide BoundAssistantTimeline, SequenceText;
    BoundNamed(runId, CloseTail(t, at) + [s]);
  }

  lemma NormalizedNamed(runId: string, t: Timeline)
    requires AllNamed(runId, t)
    ensures AllNamed(runId, BoundAssistantTimeline(NormalizePhases(t)))
  {
    if LastToolSequence(t).Some? { RephasedAt(t, LastToolSequence(t).value); }
    hide BoundAssistantTimeline, SequenceText, RephaseAll;
    BoundNamed(runId, NormalizePhases(t));
  }

  lemma StepNamed(runId: string, t: Timeline, input: Input)
    requires AllNamed(runId, t)
    ensures AllNamed(runId, Reduce(runId, t, input))
  {
    hide BoundAssistantTimeline, SequenceText, FindTool, NormalizePhases;
    match input
    case ThinkingDelta(text, at) =>
      var n := NextSequence(CloseTail(t, at));
      AppendNamed(runId, t, at, Segment("think-" + runId + "-" + SequenceText(n), n, Thinking(Opening(text, at))));
    case TextDelta(phase, text, at) =>
      var n := NextSequence(CloseTail(t, at));
      AppendNamed(runId, t, at, Segment("text-" + runId + "-" + SequenceText(n), n, Text(phase, Opening(text, at))));
    case ToolStarted(call, name, args, at) =>
      var row := Segment("tool-" + runId + "-" + call, NextSequence(CloseTail(t, at)),
                         Tool(ToolRow(call, name, args, None, false, Running, at, None)));
      AppendNamed(runId, t, at, row);
      NormalizedNamed(runId, CloseTail(t, at) + [row]);
    case ToolCompleted(call, output, failed, at) =>
    case StatusNoted(row) =>
      var n := NextSequence(CloseTail(t, row.occurredAt));
      AppendNamed(runId, t, row.occurredAt, Segment("status-" + runId + "-" + SequenceText(n), n, Status(row)));
    case Closed(at) =>
  }

  /** Over any inputs, every segment has the name of its kind. */
  lemma {:induction false} NamesOnRuns(runId: string, inputs: seq<Input>)
    ensures AllNamed(runId, Replay(runId, inputs))
  {
    if inputs != [] {
      NamesOnRuns(runId, inputs[..|inputs| - 1]);
      StepNamed(runId, Replay(runId, inputs[..|inputs| - 1]), inputs[|inputs| - 1]);
    }
  }

  /** The number that decimal digits stand for. */
  function ValueOf(s: string): int {
    if s == "" then 0 else ValueOf(s[..|s| - 1]) * 10 + (s[|s| - 1] as int - '0' as int)
  }

  lemma DigitValue(d: nat)
    requires d < 10
    ensures "0123456789"[d] as int - '0' as int == d
  {
  }

  /** Numbers are written in decimal digits, so that different ones are written differently. */
  lemma {:induction false} DecimalReads(n: nat)
    ensures ValueOf(Decimal(n)) == n
  {
    DigitValue(n % 10);
    if n >= 10 {
      DecimalReads(n / 10);
      assert Decimal(n)[..|Decimal(n)| - 1] == Decimal(n / 10);
    } else {
      assert Decimal(n)[..0] == "";
    }
  }

  /** Two segments of one kind that come from deltas or notes have different names. */
  lemma NamesDiffer(runId: string, inputs: seq<Input>, i: nat, j: nat)
    requires i < j < |Replay(runId, inputs)|
    requires var t := Replay(runId, inputs);
             || (t[i].body.Thinking? && t[j].body.Thinking?) || (t[i].body.Text? && t[j].body.Text?)
             || (t[i].body.Status? && t[j].body.Status?)
    ensures Replay(runId, inputs)[i].id != Replay(runId, inputs)[j].id
  {
    var t := Replay(runId, inputs);
    Conservation(runId, inputs);
    NamesOnRuns(runId, inputs);
    assert Before(t[i], t[j]) by { OrderlySorted(t); }
    DecimalReads(t[i].sequence);
    DecimalReads(t[j].sequence);
    var kind := if t[i].body.Thinking? then "think-" else if t[i].body.Text? then "text-" else "status-";
    hide Decimal, ValueOf, Replay, Orderly;
    SuffixesDiffer(kind + runId + "-", SequenceText(t[i].sequence), SequenceText(t[j].sequence));
  }

  lemma SuffixesDiffer(prefix: string, a: string, b: string)
    requires a != b
    ensures prefix + a != prefix + b
  {
    assert (prefix + a)[|prefix|..] == a && (prefix + b)[|prefix|..] == b;
  }
}
