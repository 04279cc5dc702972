/** `appendAssistantTextDelta` with `afterSequence`: text that was held back is put where it
    first arrived, and the other segments are renumbered. */
module LateText {
  import opened Results
  import opened Ordering
  import opened TimelineBound
  import opened AssistantTimeline
  import opened TimelineRows

  // ----------------------------------------------------------------- the reducer

  /** Place of the first segment from `sequence` on, or the end. */
  function FirstFrom(t: Timeline, sequence: int): (i: nat)
    ensures i <= |t|
    ensures i < |t| ==> t[i].sequence >= sequence
    ensures forall j :: 0 <= j < i ==> t[j].sequence < sequence
  {
    if t == [] || t[0].sequence >= sequence then 0 else 1 + FirstFrom(t[1..], sequence)
  }

  /** Every segment but one gets its index as sequence. */
  function Renumbered(t: Timeline, except: nat): Timeline {
    seq(|t|, i requires 0 <= i < |t| => if i == except then t[i] else t[i].(sequence := i))
  }

  function Inserted(t: Timeline, s: Segment): Timeline {
    var i := FirstFrom(t, s.sequence);
    Renumbered(t[..i] + [s] + t[i..], i)
  }

  /** The text continues the tail. */
  predicate Continues(t: Timeline, phase: Phase, after: int) {
    t != [] && t[|t| - 1].body.Text? && t[|t| - 1].body.phase == phase && StreamingProse(t[|t| - 1])
    && t[|t| - 1].sequence == after
  }

  function Late(runId: string, phase: Phase, text: string, at: string, after: int): Segment {
    Segment("text-" + runId + "-" + SequenceText(after), after, Text(phase, Opening(text, at)))
  }

  function AppendLateText(runId: string, t: Timeline, phase: Phase, text: string, at: string, after: int): Timeline {
    if text == "" then t
    else if Continues(t, phase, after) then
      var tail := t[|t| - 1];
      t[..|t| - 1] + [tail.(body := Text(phase, tail.body.answer.(text := tail.body.answer.text + text)))]
    else BoundAssistantTimeline(Inserted(CloseTail(t, at), Late(runId, phase, text, at, after)))
  }

  /** Two pieces of held text for the place of the tail join it as one would. */
  lemma LatePiecesJoin(runId: string, t: Timeline, phase: Phase, a: string, b: string, at: string, later: string)
    requires a != "" && b != "" && t != []
    requires t[|t| - 1].body.Text? && t[|t| - 1].body.phase == phase && t[|t| - 1].body.answer.streaming
    ensures var after := t[|t| - 1].sequence;
            && AppendLateText(runId, AppendLateText(runId, t, phase, a, at, after), phase, b, later, after)
               == AppendTextDelta(runId, t, phase, a + b, at)
  {
    hide BoundAssistantTimeline, Inserted, CloseTail;
    ConcatAssociative(t[|t| - 1].body.answer.text, a, b);
  }

  // ------------------------------------------------------------- what it displays

  /** The same text or row, whatever the sequence and the status. */
  predicate Alike(s: Segment, u: Segment) {
    match (s.body, u.body)
    case (Thinking(p), Thinking(q)) => p.text == q.text
    case (Text(_, p), Text(_, q)) => p.text == q.text
    case (Tool(a), Tool(b)) => a == b
    case (Status(a), Status(b)) => a == b
    case _ => false
  }

  ghost predicate AllAlike(t: Timeline, r: Timeline) {
    |t| == |r| && forall i :: 0 <= i < |t| ==> Alike(t[i], r[i])
  }

  /** The same texts and rows on display. */
  ghost predicate ShowsAs(t: Timeline, r: Timeline) {
    && ThinkingText(t) == ThinkingText(r) && AnswerText(t) == AnswerText(r)
    && Display(Rows(t)) == Display(Rows(r)) && |Rows(t)| == |Rows(r)|
  }

  lemma DisplaySnoc(rows: Timeline, s: Segment)
    ensures Display(rows + [s]) == Display(rows) + [RowOf(s)]
  {
  }

  lemma AlikeSnoc(t: Timeline, r: Timeline, s: Segment, u: Segment)
    requires ShowsAs(t, r) && Alike(s, u)
    ensures ShowsAs(t + [s], r + [u])
  {
    hide ThinkingText, AnswerText, RowKeys, Rows, Filter, Display;
    Snoc(t, s);
    Snoc(r, u);
    DisplaySnoc(Rows(t), s);
    DisplaySnoc(Rows(r), u);
  }

  lemma {:induction false} AlikeShown(t: Timeline, r: Timeline)
    requires AllAlike(t, r)
    ensures ShowsAs(t, r)
    decreases |t|
  {
    hide Alike, ShowsAs;
    if t == [] {
      assert t == r;
      ShowsItself(t);
    } else {
      SplitLast(t);
      SplitLast(r);
      AlikeShown(t[..|t| - 1], r[..|t| - 1]);
      AlikeSnoc(t[..|t| - 1], r[..|t| - 1], t[|t| - 1], r[|t| - 1]);
    }
  }

  lemma ShowsItself(t: Timeline)
    ensures ShowsAs(t, t)
  {
    hide ThinkingText, AnswerText, RowKeys, Rows, Display;
  }

  lemma {:induction false} ShownConcat(a: Timeline, b: Timeline)
    ensures ThinkingText(a + b) == ThinkingText(a) + ThinkingText(b)
    ensures AnswerText(a + b) == AnswerText(a) + AnswerText(b)
    ensures Rows(a + b) == Rows(a) + Rows(b)
    decreases |b|
  {
    if b == [] {
      assert a + b == a;
      ShownNothing();
    }
    hide ThinkingText, AnswerText, Rows, Filter;
    if b != [] {
      SplitLast(b);
      ShownConcat(a, b[..|b| - 1]);
      ShownSnoc(a, b[..|b| - 1], b[|b| - 1]);
    }
  }

  lemma ShownNothing()
    ensures ThinkingText([]) == "" && AnswerText([]) == "" && Rows([]) == []
  {
  }

  lemma ShownSnoc(a: Timeline, b: Timeline, s: Segment)
    requires ThinkingText(a + b) == ThinkingText(a) + ThinkingText(b)
    requires AnswerText(a + b) == AnswerText(a) + AnswerText(b)
    requires Rows(a + b) == Rows(a) + Rows(b)
    ensures ThinkingText(a + (b + [s])) == ThinkingText(a) + ThinkingText(b + [s])
    ensures AnswerText(a + (b + [s])) == AnswerText(a) + AnswerText(b + [s])
    ensures Rows(a + (b + [s])) == Rows(a) + Rows(b + [s])
  {
    hide ThinkingText, AnswerText, RowKeys, Rows, Filter;
    ConcatAssociative(a, b, [s]);
    Snoc(a + b, s);
    Snoc(b, s);
    ConcatAssociative(Rows(a), Rows(b), [s]);
    if s.body.Thinking? { ConcatAssociative(ThinkingText(a), ThinkingText(b), s.body.thought.text); }
    if s.body.Text? { ConcatAssociative(AnswerText(a), AnswerText(b), s.body.answer.text); }
  }

  lemma CloseAlike(t: Timeline, at: string)
    ensures AllAlike(t, CloseTail(t, at))
  {
  }

  /** The held back text appears where it belongs, between the texts around it, and nothing
      else on display changes. */
  lemma LateTextPlaced(runId: string, t: Timeline, phase: Phase, text: string, at: string, after: int)
    requires Orderly(t) && text != "" && !Continues(t, phase, after)
    ensures var i, r := FirstFrom(t, after), AppendLateText(runId, t, phase, text, at, after);
            && r == Inserted(CloseTail(t, at), Late(runId, phase, text, at, after))
            && AnswerText(r) == AnswerText(t[..i]) + text + AnswerText(t[i..])
            && ThinkingText(r) == ThinkingText(t) && Display(Rows(r)) == Display(Rows(t))
  {
    hide ThinkingText, AnswerText, RowKeys, Rows, Filter, SortedBy, Bound, CloseSegment, Display;
    var c, s := CloseTail(t, at), Late(runId, phase, text, at, after);
    var i := FirstFrom(t, after);
    CloseAlike(t, at);
    SamePlace(t, at, after);
    InsertedAlike(t, c, s);
    AlikeShown(t[..i] + [s] + t[i..], Inserted(c, s));
    ShownAround(t[..i], s, t[i..]);
    SplitAt(t, i, |t|);
    assert t[..i] + t[i..] == t;
    FitsWindow(Inserted(c, s));
  }

  /** Held text goes on with the tail exactly if that is open text of its phase and has its number;
      otherwise it is an open segment of its own, before the first segment from its number on, and
      every other segment gets its index as number. */
  lemma LateTextOpens(runId: string, t: Timeline, phase: Phase, text: string, at: string, after: int)
    requires Orderly(t) && text != ""
    ensures var i, n, r := FirstFrom(t, after), |t| - 1, AppendLateText(runId, t, phase, text, at, after);
            if n >= 0 && t[n].body.Text? && t[n].body.phase == phase && t[n].body.answer.streaming
               && t[n].sequence == after then
              && |r| == |t| && r[..n] == t[..n] && r[n].id == t[n].id && r[n].sequence == after
              && r[n].body == Text(phase, t[n].body.answer.(text := t[n].body.answer.text + text))
            else
              && |r| == |t| + 1
              && r[i] == Segment("text-" + runId + "-" + SequenceText(after), after,
                                 Text(phase, Passage(text, true, at, None)))
              && forall k :: 0 <= k < |t| ==>
                   var j := if k < i then k else k + 1;
                   r[j] == Segment(t[k].id, j, CloseTail(t, at)[k].body)
  {
    hide Inserted, FirstFrom, SequenceText, CloseTail, BoundAssistantTimeline, Orderly;
    if !Continues(t, phase, after) {
      LateTextInserted(runId, t, phase, text, at, after);
      hide AppendLateText;
    }
  }

  lemma LateTextInserted(runId: string, t: Timeline, phase: Phase, text: string, at: string, after: int)
    requires Orderly(t) && text != "" && !Continues(t, phase, after)
    ensures var i, r := FirstFrom(t, after), AppendLateText(runId, t, phase, text, at, after);
            && |r| == |t| + 1 && i < |r| && r[i] == Late(runId, phase, text, at, after)
            && forall k :: 0 <= k < |t| ==>
                 var j := if k < i then k else k + 1;
                 r[j] == Segment(t[k].id, j, CloseTail(t, at)[k].body)
  {
    hide *;
    var c, s := CloseTail(t, at), Late(runId, phase, text, at, after);
    LateIsInserted(runId, t, phase, text, at, after);
    ClosedSegments(t, at);
    SamePlace(t, at, after);
    LateNumber(runId, phase, text, at, after);
    InsertedSegments(c, s);
    forall k | 0 <= k < |t|
      ensures Inserted(c, s)[if k < FirstFrom(t, after) then k else k + 1]
           == Segment(t[k].id, if k < FirstFrom(t, after) then k else k + 1, c[k].body)
    {
      assert c[k].id == t[k].id;
    }
  }

  lemma LateIsInserted(runId: string, t: Timeline, phase: Phase, text: string, at: string, after: int)
    requires Orderly(t) && text != "" && !Continues(t, phase, after)
    ensures AppendLateText(runId, t, phase, text, at, after)
         == Inserted(CloseTail(t, at), Late(runId, phase, text, at, after))
  {
    hide *;
    LateTextPlaced(runId, t, phase, text, at, after);
  }

  lemma ClosedSegments(t: Timeline, at: string)
    ensures |CloseTail(t, at)| == |t| && forall k :: 0 <= k < |t| ==> CloseTail(t, at)[k].id == t[k].id
  {
  }

  lemma LateNumber(runId: string, phase: Phase, text: string, at: string, after: int)
    ensures Late(runId, phase, text, at, after).sequence == after
  {
  }

  lemma InsertedSegments(t: Timeline, s: Segment)
    ensures var i, r := FirstFrom(t, s.sequence), Inserted(t, s);
            && |r| == |t| + 1 && r[i] == s
            && forall k :: 0 <= k < |t| ==>
                 var j := if k < i then k else k + 1;
                 r[j] == Segment(t[k].id, j, t[k].body)
  {
    hide FirstFrom;
  }

  /** Closing the tail moves nothing. */
  lemma SamePlace(t: Timeline, at: string, after: int)
    ensures FirstFrom(CloseTail(t, at), after) == FirstFrom(t, after)
  {
  }

  lemma InsertedAlike(t: Timeline, c: Timeline, s: Segment)
    requires AllAlike(t, c) && FirstFrom(c, s.sequence) == FirstFrom(t, s.sequence)
    ensures var i := FirstFrom(t, s.sequence); AllAlike(t[..i] + [s] + t[i..], Inserted(c, s))
  {
    hide FirstFrom;
  }

  lemma ShownAround(a: Timeline, s: Segment, b: Timeline)
    requires s.body.Text?
    ensures AnswerText(a + [s] + b) == AnswerText(a) + s.body.answer.text + AnswerText(b)
    ensures ThinkingText(a + [s] + b) == ThinkingText(a + b) && Rows(a + [s] + b) == Rows(a + b)
  {
    hide ThinkingText, AnswerText, Rows, Filter, RowKeys;
    Snoc(a, s);
    ShownConcat(a + [s], b);
    ShownConcat(a, b);
  }

  /** With no more than 512 rows there is nothing to evict. */
  lemma FitsWindow(t: Timeline)
    requires |Rows(t)| <= MAX_SEGMENTS
    ensures BoundAssistantTimeline(t) == t
  {
    hide Filter, SortBy;
    FilterLengths(Protected, t);
  }

  /** One row too many: the window is split, cut and sorted. */
  lemma BoundEvicts(v: Timeline)
    requires |Rows(v)| > MAX_SEGMENTS
    ensures BoundAssistantTimeline(v) == SortBy(SegmentLeq, Filter(Protected, v) + Newest(Rows(v)))
  {
    FilterLengths(Protected, v);
    hide Filter, SortBy;
  }

  lemma LastAfter<T>(s: seq<T>, n: nat)
    requires n < |s|
    ensures s[|s| - 1] in s[n..]
  {
    assert s[n..][|s| - n - 1] == s[|s| - 1];
  }

  lemma LastRowKept(v: Timeline)
    requires v != [] && !Protected(v[|v| - 1]) && |Rows(v)| > MAX_SEGMENTS
    ensures v[|v| - 1] in Newest(Rows(v))
  {
    SplitLast(v);
    Snoc(v[..|v| - 1], v[|v| - 1]);
    hide Rows;
    LastAfter(Rows(v), |Rows(v)| - MAX_SEGMENTS);
  }

  // ------------------------------------------------------------------- its order

  lemma {:induction false} SequenceAtLeast(t: Timeline, k: nat)
    requires SortedBy(Before, t) && k < |t| && forall j :: 0 <= j < |t| ==> t[j].sequence >= 0
    ensures t[k].sequence >= k
  {
    if k > 0 {
      SequenceAtLeast(t, k - 1);
      assert Before(t[k - 1], t[k]);
    }
  }

  lemma InsertedSequences(t: Timeline, s: Segment)
    ensures var i, r := FirstFrom(t, s.sequence), Inserted(t, s);
            && |r| == |t| + 1 && r[i] == s && forall k :: 0 <= k < |r| && k != i ==> r[k].sequence == k
  {
    hide FirstFrom;
  }

  /** The sequences still rise exactly when the text comes last or its place is the one that
      its number says: when no gap was left by rows that were evicted before it. */
  lemma LateTextOrder(runId: string, t: Timeline, phase: Phase, text: string, at: string, after: nat)
    requires Orderly(t) && text != "" && !Continues(t, phase, after)
    requires forall j :: 0 <= j < |t| ==> t[j].sequence >= 0
    ensures var i := FirstFrom(t, after);
            SortedBy(Before, AppendLateText(runId, t, phase, text, at, after)) <==> i == |t| || after == i
  {
    hide AppendLateText, Inserted, FirstFrom, ThinkingText, AnswerText, RowKeys, Rows, Orderly, SortedBy;
    var i := FirstFrom(t, after);
    LateTextPlaced(runId, t, phase, text, at, after);
    SamePlace(t, at, after);
    InsertedSequences(CloseTail(t, at), Late(runId, phase, text, at, after));
    OrderlySorted(t);
    if i > 0 { SequenceAtLeast(t, i - 1); }
    RisesExactly(AppendLateText(runId, t, phase, text, at, after), i, after);
  }

  lemma OrderlySorted(t: Timeline)
    requires Orderly(t)
    ensures SortedBy(Before, t)
  {
  }

  /** Indices with one number among them that is not its own. */
  lemma RisesExactly(r: Timeline, i: nat, n: nat)
    requires i < |r| && r[i].sequence == n >= i && forall k :: 0 <= k < |r| && k != i ==> r[k].sequence == k
    ensures SortedBy(Before, r) <==> i == |r| - 1 || n == i
  {
    if i < |r| - 1 { assert Before(r[i], r[i + 1]) <==> n <= i; }
  }
}
