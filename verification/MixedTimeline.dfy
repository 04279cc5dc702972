/** Runs of the timeline reducers in which texts arrive plainly and late, in any mixture. Such
    a timeline need not be in order any more; what still holds is proved here. */
module MixedTimeline {
  import opened Results
  import opened Ordering
  import opened TimelineBound
  import opened AssistantTimeline
  import opened TimelineRows
  import opened LateText

  datatype MixedInput =
    | Plain(input: Input)
    | LateDelta(phase: Phase, text: string, at: string, after: nat)

  function Step(runId: string, t: Timeline, m: MixedInput): Timeline {
    match m
    case Plain(input) => Reduce(runId, t, input)
    case LateDelta(phase, text, at, after) => AppendLateText(runId, t, phase, text, at, after)
  }

  function MixedReplay(runId: string, inputs: seq<MixedInput>): Timeline {
    if inputs == [] then []
    else Step(runId, MixedReplay(runId, inputs[..|inputs| - 1]), inputs[|inputs| - 1])
  }

  /** The same inputs without their places. */
  function Unplaced(inputs: seq<MixedInput>): seq<Input> {
    if inputs == [] then []
    else Unplaced(inputs[..|inputs| - 1]) + [InTurn(inputs[|inputs| - 1])]
  }

  function InTurn(m: MixedInput): Input {
    match m
    case Plain(input) => input
    case LateDelta(phase, text, at, _) => TextDelta(phase, text, at)
  }

  // -------------------------------------------------------------- what still holds

  predicate IsThought(s: Segment) {
    s.body.Thinking?
  }

  function Thoughts(t: Timeline): Timeline {
    Filter(IsThought, t)
  }

  /** Thoughts and rows are in order, the window is kept, and no thought or row is numbered
      above the tail. Texts may be anywhere. */
  ghost predicate Tidy(t: Timeline) {
    Rising(t) && |Rows(t)| <= MAX_SEGMENTS
  }

  ghost predicate Rising(t: Timeline) {
    && SortedBy(Before, Thoughts(t)) && SortedBy(Before, Rows(t))
    && (t != [] ==> TopsRest(t))
  }

  ghost predicate TopsRest(t: Timeline)
    requires t != []
  {
    var top := t[|t| - 1].sequence;
    top >= |t| - 2 && forall k :: 0 <= k < |t| && !t[k].body.Text? ==> t[k].sequence <= top
  }

  lemma ThoughtsSnoc(t: Timeline, s: Segment)
    ensures Thoughts(t + [s]) == if s.body.Thinking? then Thoughts(t) + [s] else Thoughts(t)
  {
    assert (t + [s])[..|t|] == t;
  }

  // ------------------------------------------------------ numbers and kinds unchanged

  predicate SameKind(s: Segment, u: Segment) {
    s.sequence == u.sequence && s.body.Thinking? == u.body.Thinking? && s.body.Text? == u.body.Text?
  }

  ghost predicate SameKinds(t: Timeline, r: Timeline) {
    |t| == |r| && forall k :: 0 <= k < |t| ==> SameKind(t[k], r[k])
  }

  lemma KindsSnoc(t: Timeline, r: Timeline, s: Segment, u: Segment)
    requires SameKinds(Thoughts(t), Thoughts(r)) && SameKinds(Rows(t), Rows(r)) && SameKind(s, u)
    ensures SameKinds(Thoughts(t + [s]), Thoughts(r + [u])) && SameKinds(Rows(t + [s]), Rows(r + [u]))
  {
    hide Filter, Thoughts, Rows, RowKeys, ThinkingText, AnswerText;
    ThoughtsSnoc(t, s);
    ThoughtsSnoc(r, u);
    Snoc(t, s);
    Snoc(r, u);
  }

  lemma {:induction false} KindsFiltered(t: Timeline, r: Timeline)
    requires SameKinds(t, r)
    ensures SameKinds(Thoughts(t), Thoughts(r)) && SameKinds(Rows(t), Rows(r))
    decreases |t|
  {
    if t == [] {
      assert r == [];
    } else {
      SplitLast(t);
      SplitLast(r);
      KindsFiltered(t[..|t| - 1], r[..|t| - 1]);
      KindsSnoc(t[..|t| - 1], r[..|t| - 1], t[|t| - 1], r[|t| - 1]);
    }
  }

  lemma KindsSorted(t: Timeline, r: Timeline)
    requires SameKinds(t, r) && SortedBy(Before, t)
    ensures SortedBy(Before, r)
  {
    forall i, j | 0 <= i < j < |r| ensures Before(r[i], r[j]) {
      assert SameKind(t[i], r[i]) && SameKind(t[j], r[j]) && Before(t[i], t[j]);
    }
  }

  lemma KindsTidy(t: Timeline, r: Timeline)
    requires SameKinds(t, r) && Rising(t)
    ensures Rising(r) && |Rows(r)| == |Rows(t)|
  {
    hide Thoughts, Rows, SortedBy;
    KindsFiltered(t, r);
    KindsSorted(Thoughts(t), Thoughts(r));
    KindsSorted(Rows(t), Rows(r));
    if t != [] {
      var top := |t| - 1;
      assert SameKind(t[top], r[top]);
      forall k | 0 <= k < |r| && !r[k].body.Text? ensures r[k].sequence <= r[top].sequence {
        assert SameKind(t[k], r[k]);
      }
    }
  }

  // ------------------------------------------------------------------ one more segment

  lemma {:induction false} FilterBelow(p: Segment -> bool, t: Timeline, top: int)
    requires forall k :: 0 <= k < |t| && p(t[k]) ==> t[k].sequence <= top
    ensures forall k :: 0 <= k < |Filter(p, t)| ==> Filter(p, t)[k].sequence <= top
  {
    if t != [] { FilterBelow(p, t[..|t| - 1], top); }
  }

  lemma RisingSnoc(t: Timeline, s: Segment)
    requires SortedBy(Before, t) && forall k :: 0 <= k < |t| ==> t[k].sequence < s.sequence
    ensures SortedBy(Before, t + [s])
  {
  }

  lemma AppendRises(t: Timeline, s: Segment)
    requires Rising(t) && s.sequence == NextSequence(t)
    ensures Rising(t + [s]) && |Rows(t + [s])| == |Rows(t)| + (if Protected(s) then 0 else 1)
  {
    hide Thoughts, Rows, Filter, RowKeys, ThinkingText, AnswerText, SortedBy;
    ThoughtsSnoc(t, s);
    Snoc(t, s);
    FiltersBelow(t);
    RisingSnoc(Thoughts(t), s);
    RisingSnoc(Rows(t), s);
    if t != [] { TopSnoc(t, s); }
  }

  lemma FiltersBelow(t: Timeline)
    requires t != [] ==> TopsRest(t)
    ensures forall k :: 0 <= k < |Thoughts(t)| ==> Thoughts(t)[k].sequence < NextSequence(t)
    ensures forall k :: 0 <= k < |Rows(t)| ==> Rows(t)[k].sequence < NextSequence(t)
  {
    if t != [] {
      FilterBelow(IsThought, t, t[|t| - 1].sequence);
      FilterBelow(Not(Protected), t, t[|t| - 1].sequence);
    }
    hide Filter;
  }

  lemma TopSnoc(t: Timeline, s: Segment)
    requires t != [] && TopsRest(t) && s.sequence == t[|t| - 1].sequence + 1
    ensures TopsRest(t + [s])
  {
  }

  // ------------------------------------------------------------------ the window sorted

  lemma {:induction false} FilterTwice(p: Segment -> bool, q: Segment -> bool, t: Timeline)
    requires forall s :: p(s) ==> q(s)
    ensures Filter(p, Filter(q, t)) == Filter(p, t)
  {
    if t != [] {
      var front, last := t[..|t| - 1], t[|t| - 1];
      FilterTwice(p, q, front);
      FilterConcat(p, Filter(q, front), if q(last) then [last] else []);
      FilterSingle(p, last);
    }
  }

  lemma ThoughtsKept(v: Timeline)
    ensures Thoughts(Filter(Protected, v) + Newest(Rows(v))) == Thoughts(v)
  {
    FilterTwice(IsThought, Protected, v);
    FilterConcat(IsThought, Filter(Protected, v), Newest(Rows(v)));
    FilterSound(Not(Protected), v);
    hide Filter;
    forall s | s in Newest(Rows(v)) ensures !IsThought(s) { assert s in Rows(v); }
    FilterNone(IsThought, Newest(Rows(v)));
    assert Thoughts(v) + [] == Thoughts(v);
  }

  /** A filter that the sort does not disturb. */
  lemma SortKeepsFilter(p: Segment -> bool, kept: Timeline)
    requires SortedBy(Before, Filter(p, kept))
    ensures Filter(p, SortBy(SegmentLeq, kept)) == Filter(p, kept)
  {
    hide Filter, SortBy, SortedBy, AntisymmetricOn, TotalPreorder;
    var r := SortBy(SegmentLeq, kept);
    SegmentLeqPreorder();
    SortPermutes(SegmentLeq, kept);
    SortSorts(SegmentLeq, kept);
    FilterSorted(SegmentLeq, p, r);
    FilterOfPermutation(p, kept, r);
    InOrderIsSorted(Filter(p, kept));
    SortedUnique(SegmentLeq, Filter(p, kept), Filter(p, r));
  }

  lemma {:induction false} ThinkingOfThoughts(t: Timeline)
    ensures ThinkingText(Thoughts(t)) == ThinkingText(t)
  {
    if t != [] {
      SplitLast(t);
      ThinkingOfThoughts(t[..|t| - 1]);
      hide Thoughts, ThinkingText, AnswerText, RowKeys, Rows, Filter;
      ThoughtsSnoc(t[..|t| - 1], t[|t| - 1]);
      Snoc(t[..|t| - 1], t[|t| - 1]);
      Snoc(Thoughts(t[..|t| - 1]), t[|t| - 1]);
    }
  }

  /** The characters of the answer, in whatever order. */
  function Letters(t: Timeline): multiset<char> {
    multiset(AnswerText(t))
  }

  lemma LettersConcat(a: Timeline, b: Timeline)
    ensures Letters(a + b) == Letters(a) + Letters(b)
  {
    ShownConcat(a, b);
    hide AnswerText;
  }

  lemma {:induction false} LettersInsert(t: Timeline, s: Segment)
    ensures Letters(Insert(SegmentLeq, t, s)) == Letters(t) + Letters([s])
  {
    hide SegmentLeq, Letters;
    if t == [] {
      LettersConcat([], [s]);
      assert [] + [s] == [s];
    } else if SegmentLeq(t[|t| - 1], s) {
      LettersConcat(t, [s]);
    } else {
      var front, last := t[..|t| - 1], t[|t| - 1];
      LettersInsert(front, s);
      LettersConcat(Insert(SegmentLeq, front, s), [last]);
      LettersConcat(front, [last]);
      SplitLast(t);
    }
  }

  lemma {:induction false} LettersSort(t: Timeline)
    ensures Letters(SortBy(SegmentLeq, t)) == Letters(t)
  {
    if t != [] {
      SplitLast(t);
      LettersSort(t[..|t| - 1]);
      hide SegmentLeq, Letters, Insert;
      LettersInsert(SortBy(SegmentLeq, t[..|t| - 1]), t[|t| - 1]);
      LettersConcat(t[..|t| - 1], [t[|t| - 1]]);
    }
  }

  lemma {:induction false} RowsHaveNoLetters(t: Timeline)
    requires forall k :: 0 <= k < |t| ==> !Protected(t[k])
    ensures AnswerText(t) == ""
  {
    if t != [] { RowsHaveNoLetters(t[..|t| - 1]); }
  }

  lemma LettersKept(v: Timeline)
    ensures Letters(Filter(Protected, v) + Newest(Rows(v))) == Letters(v)
  {
    TextsLiveInProse(v);
    LettersConcat(Filter(Protected, v), Newest(Rows(v)));
    FilterSound(Not(Protected), v);
    hide Filter, AnswerText;
    var rows := Newest(Rows(v));
    forall k | 0 <= k < |rows| ensures !Protected(rows[k]) { assert rows[k] in Rows(v); }
    RowsHaveNoLetters(rows);
  }

  /** The same thoughts and letters, and the newest of the rows. */
  ghost predicate Settles(t: Timeline, r: Timeline) {
    Tidy(r) && ThinkingText(r) == ThinkingText(t) && Letters(r) == Letters(t) && Rows(r) == Newest(Rows(t))
  }

  lemma NewestRising(rows: Timeline)
    requires SortedBy(Before, rows)
    ensures SortedBy(Before, Newest(rows)) && |Newest(rows)| <= MAX_SEGMENTS
    ensures |rows| <= MAX_SEGMENTS ==> Newest(rows) == rows
  {
  }

  /** Bounding a timeline whose last segment may be one row too many. */
  lemma BoundSettles(v: Timeline)
    requires Rising(v) && |Rows(v)| <= MAX_SEGMENTS + 1
    requires |Rows(v)| > MAX_SEGMENTS ==> v != [] && !Protected(v[|v| - 1])
    ensures Settles(v, BoundAssistantTimeline(v))
  {
    hide Thoughts, Rows, Bound, SortedBy, Newest, Letters, ThinkingText, TopsRest;
    if |Rows(v)| <= MAX_SEGMENTS {
      FitsWindow(v);
      NewestRising(Rows(v));
    } else {
      SortSettles(v);
    }
  }

  lemma SortSettles(v: Timeline)
    requires Rising(v) && |Rows(v)| == MAX_SEGMENTS + 1 && v != [] && !Protected(v[|v| - 1])
    ensures Settles(v, BoundAssistantTimeline(v))
  {
    hide Filter, Thoughts, Rows, Bound, SortedBy, SortBy, Newest, Letters, ThinkingText, TopsRest, TotalPreorder, Not;
    var kept := Filter(Protected, v) + Newest(Rows(v));
    var r := SortBy(SegmentLeq, kept);
    BoundEvicts(v);
    NewestRising(Rows(v));
    ThoughtsKept(v);
    RowsKept(v);
    ThoughtsSorted(kept);
    RowsSorted(kept);
    ThinkingOfThoughts(v);
    ThinkingOfThoughts(r);
    LettersSort(kept);
    LettersKept(v);
    SortTops(v);
  }

  lemma RowsKept(v: Timeline)
    ensures Rows(Filter(Protected, v) + Newest(Rows(v))) == Newest(Rows(v))
  {
    hide Filter, Newest;
    KeptParts(Protected, v);
  }

  lemma ThoughtsSorted(kept: Timeline)
    requires SortedBy(Before, Thoughts(kept))
    ensures Thoughts(SortBy(SegmentLeq, kept)) == Thoughts(kept)
  {
    hide Filter, SortBy, SortedBy;
    SortKeepsFilter(IsThought, kept);
  }

  lemma RowsSorted(kept: Timeline)
    requires SortedBy(Before, Rows(kept))
    ensures Rows(SortBy(SegmentLeq, kept)) == Rows(kept)
  {
    hide Filter, SortBy, SortedBy;
    SortKeepsFilter(Not(Protected), kept);
  }

  /** The newest row is kept, so the last of the sorted segments is at least as high. */
  lemma SortTops(v: Timeline)
    requires v != [] && TopsRest(v) && !Protected(v[|v| - 1]) && |Rows(v)| == MAX_SEGMENTS + 1
    ensures var r := SortBy(SegmentLeq, Filter(Protected, v) + Newest(Rows(v))); r != [] && TopsRest(r)
  {
    hide Filter, Rows, SortBy, TotalPreorder, Protected, TopsRest;
    var kept := Filter(Protected, v) + Newest(Rows(v));
    var r := SortBy(SegmentLeq, kept);
    LastRowKept(v);
    KeptLength(v);
    SegmentLeqPreorder();
    SortPermutes(SegmentLeq, kept);
    SortSorts(SegmentLeq, kept);
    assert v[|v| - 1] in multiset(r);
    SortedLast(SegmentLeq, r, v[|v| - 1]);
    TopsLength(v);
    SortedTops(r, v[|v| - 1].sequence);
  }

  lemma TopsLength(v: Timeline)
    requires v != [] && TopsRest(v)
    ensures v[|v| - 1].sequence >= |v| - 2
  {
  }

  lemma KeptLength(v: Timeline)
    requires |Rows(v)| == MAX_SEGMENTS + 1
    ensures |Filter(Protected, v) + Newest(Rows(v))| == |v| - 1
  {
    FilterLengths(Protected, v);
    hide Filter;
  }

  lemma SortedTops(r: Timeline, n: int)
    requires r != [] && SortedBy(SegmentLeq, r) && r[|r| - 1].sequence >= n >= |r| - 2
    ensures TopsRest(r)
  {
    hide StringLeq;
    forall k | 0 <= k < |r| ensures r[k].sequence <= r[|r| - 1].sequence {
      if k < |r| - 1 { assert SegmentLeq(r[k], r[|r| - 1]); }
    }
  }

  // ------------------------------------------------------------------------- steps

  /** What a step adds to the thoughts and to the letters, and the board that it leaves. */
  ghost predicate Adds(t: Timeline, r: Timeline, thought: string, answer: string, board: Board) {
    && Tidy(r) && ThinkingText(r) == ThinkingText(t) + thought && Letters(r) == Letters(t) + multiset(answer)
    && Display(Rows(r)) == board
  }

  function ThoughtOf(s: Segment): string {
    if s.body.Thinking? then s.body.thought.text else ""
  }

  function AnswerOf(s: Segment): string {
    if s.body.Text? then s.body.answer.text else ""
  }

  function BoardWith(board: Board, s: Segment): Board {
    if Protected(s) then board else Newest(board + [RowOf(s)])
  }

  lemma NothingAdded(t: Timeline)
    requires Tidy(t)
    ensures Adds(t, t, "", "", Display(Rows(t)))
  {
    hide Tidy, ThinkingText, AnswerText, Rows, Display;
    assert ThinkingText(t) + "" == ThinkingText(t);
  }

  lemma ClosedTidy(t: Timeline, at: string)
    requires Tidy(t)
    ensures Adds(t, CloseTail(t, at), "", "", Display(Rows(t)))
  {
    hide Rising, ThinkingText, AnswerText, Rows, Display;
    ClosedKinds(t, at);
    KindsTidy(t, CloseTail(t, at));
    CloseAlike(t, at);
    AlikeShown(t, CloseTail(t, at));
    hide CloseTail;
    assert ThinkingText(t) + "" == ThinkingText(t);
  }

  lemma ClosedKinds(t: Timeline, at: string)
    ensures SameKinds(t, CloseTail(t, at))
  {
  }

  lemma PushedRises(t: Timeline, s: Segment)
    requires Tidy(t) && s.sequence == NextSequence(t)
    ensures var v := t + [s];
            && Rising(v) && |Rows(v)| <= MAX_SEGMENTS + 1 && (|Rows(v)| > MAX_SEGMENTS ==> !Protected(s))
            && ThinkingText(v) == ThinkingText(t) + ThoughtOf(s) && AnswerText(v) == AnswerText(t) + AnswerOf(s)
            && Display(Newest(Rows(v))) == BoardWith(Display(Rows(t)), s)
  {
    hide Rising, ThinkingText, AnswerText, Rows, Display, RowKeys, Filter, NextSequence, Newest;
    AppendRises(t, s);
    Snoc(t, s);
    NewestDisplay(Rows(t), s);
    if !s.body.Thinking? { assert ThinkingText(t) + "" == ThinkingText(t); }
    if !s.body.Text? { assert AnswerText(t) + "" == AnswerText(t); }
  }

  lemma BoundAdds(t: Timeline, v: Timeline, thought: string, answer: string)
    requires Rising(v) && |Rows(v)| <= MAX_SEGMENTS + 1
    requires |Rows(v)| > MAX_SEGMENTS ==> v != [] && !Protected(v[|v| - 1])
    requires ThinkingText(v) == ThinkingText(t) + thought && AnswerText(v) == AnswerText(t) + answer
    ensures Adds(t, BoundAssistantTimeline(v), thought, answer, Display(Newest(Rows(v))))
  {
    hide Rising, ThinkingText, AnswerText, Rows, Display, Bound, Newest, Tidy;
    BoundSettles(v);
    assert multiset(AnswerText(t) + answer) == multiset(AnswerText(t)) + multiset(answer);
  }

  lemma NormalizedKinds(v: Timeline)
    ensures SameKinds(v, NormalizePhases(v))
  {
    if LastToolSequence(v).Some? { RephasedAt(v, LastToolSequence(v).value); }
    hide RephaseAll, LastToolSequence;
  }

  lemma NormalizedSame(v: Timeline)
    ensures var w := NormalizePhases(v);
            ThinkingText(w) == ThinkingText(v) && AnswerText(w) == AnswerText(v) && Rows(w) == Rows(v)
  {
    if LastToolSequence(v).Some? { RephaseKeeps(v, LastToolSequence(v).value); }
    hide RephaseAll, LastToolSequence, ThinkingText, AnswerText, Rows;
  }

  lemma KindsProtected(v: Timeline, w: Timeline)
    requires SameKinds(v, w) && v != []
    ensures Protected(v[|v| - 1]) == Protected(w[|w| - 1])
  {
    assert SameKind(v[|v| - 1], w[|w| - 1]);
  }

  /** A segment pushed behind the closed tail. */
  lemma TidyNext(t: Timeline, at: string, s: Segment)
    requires Tidy(t) && s.sequence == NextSequence(CloseTail(t, at))
    ensures var board := BoardWith(Display(Rows(t)), s);
            && Adds(t, BoundAssistantTimeline(CloseTail(t, at) + [s]), ThoughtOf(s), AnswerOf(s), board)
            && Adds(t, BoundAssistantTimeline(NormalizePhases(CloseTail(t, at) + [s])), ThoughtOf(s), AnswerOf(s),
                    board)
  {
    hide Rising, ThinkingText, AnswerText, Rows, Display, Bound, Newest, CloseTail, NormalizePhases, SameKinds;
    hide NextSequence, ThoughtOf, AnswerOf, BoardWith, Protected;
    CloseAlike(t, at);
    AlikeShown(t, CloseTail(t, at));
    ClosedTidy(t, at);
    var v := CloseTail(t, at) + [s];
    PushedRises(CloseTail(t, at), s);
    BoundAdds(t, v, ThoughtOf(s), AnswerOf(s));
    NormalizedKinds(v);
    NormalizedSame(v);
    KindsTidy(v, NormalizePhases(v));
    KindsProtected(v, NormalizePhases(v));
    NormalizedEmpty(v);
    BoundAdds(t, NormalizePhases(v), ThoughtOf(s), AnswerOf(s));
  }

  lemma NormalizedEmpty(v: Timeline)
    requires SameKinds(v, NormalizePhases(v))
    ensures |NormalizePhases(v)| == |v|
  {
  }

  /** Text appended to a tail of prose. */
  lemma TidyGrown(t: Timeline, tail: Segment, thought: string, answer: string)
    requires Tidy(t) && t != [] && Protected(tail) && SameKind(t[|t| - 1], tail)
    requires ThoughtOf(tail) == ThoughtOf(t[|t| - 1]) + thought && AnswerOf(tail) == AnswerOf(t[|t| - 1]) + answer
    ensures Adds(t, t[..|t| - 1] + [tail], thought, answer, Display(Rows(t)))
  {
    hide Rising, ThinkingText, AnswerText, Rows, Display, RowKeys, Filter;
    var front, last, r := t[..|t| - 1], t[|t| - 1], t[..|t| - 1] + [tail];
    SplitLast(t);
    KindsTidy(t, r);
    SnocTexts(front, last);
    SnocTexts(front, tail);
    ConcatAssociative(ThinkingText(front), ThoughtOf(last), thought);
    ConcatAssociative(AnswerText(front), AnswerOf(last), answer);
    hide ThoughtOf, AnswerOf;
    assert multiset(AnswerText(t) + answer) == multiset(AnswerText(t)) + multiset(answer);
  }

  lemma SnocTexts(t: Timeline, s: Segment)
    ensures ThinkingText(t + [s]) == ThinkingText(t) + ThoughtOf(s)
    ensures AnswerText(t + [s]) == AnswerText(t) + AnswerOf(s)
    ensures Protected(s) ==> Rows(t + [s]) == Rows(t)
  {
    hide ThinkingText, AnswerText, Rows, RowKeys, Filter;
    Snoc(t, s);
    if !s.body.Thinking? { assert ThinkingText(t) + "" == ThinkingText(t); }
    if !s.body.Text? { assert AnswerText(t) + "" == AnswerText(t); }
  }

  /** A tool row with new details. */
  lemma TidyReplaced(t: Timeline, i: nat, s: Segment)
    requires Tidy(t) && i < |t| && t[i].body.Tool? && s.body.Tool? && s.sequence == t[i].sequence
    requires RowKeyOf(s) == RowKeyOf(t[i]) && RowIndex(t, i) < |Display(Rows(t))|
    ensures Adds(t, t[i := s], "", "", Display(Rows(t))[RowIndex(t, i) := RowOf(s)])
  {
    hide Rising, ThinkingText, AnswerText, Rows, Display, RowKeys, RowIndex;
    KindsTidy(t, t[i := s]);
    ReplaceRow(t, i, s);
    DisplayAt(t, i, s);
    assert ThinkingText(t) + "" == ThinkingText(t);
  }

  lemma ThinkingTidy(runId: string, t: Timeline, text: string, at: string)
    requires Tidy(t)
    ensures Adds(t, AppendThinkingDelta(runId, t, text, at), text, "", Display(Rows(t)))
  {
    hide Adds, Tidy, Bound, CloseTail, NextSequence, SequenceText, Display, Rows;
    if text == "" {
      NothingAdded(t);
    } else if t != [] && t[|t| - 1].body.Thinking? && StreamingProse(t[|t| - 1]) {
      var tail := t[|t| - 1];
      assert AnswerOf(tail) + "" == AnswerOf(tail);
      TidyGrown(t, tail.(body := Thinking(tail.body.thought.(text := tail.body.thought.text + text))), text, "");
    } else {
      var n := NextSequence(CloseTail(t, at));
      TidyNext(t, at, Segment("think-" + runId + "-" + SequenceText(n), n, Thinking(Opening(text, at))));
    }
  }

  lemma TextTidy(runId: string, t: Timeline, phase: Phase, text: string, at: string)
    requires Tidy(t)
    ensures Adds(t, AppendTextDelta(runId, t, phase, text, at), "", text, Display(Rows(t)))
  {
    hide Adds, Tidy, Bound, CloseTail, NextSequence, SequenceText, Display, Rows;
    if text == "" {
      NothingAdded(t);
    } else if t != [] && t[|t| - 1].body.Text? && t[|t| - 1].body.phase == phase && StreamingProse(t[|t| - 1]) {
      GrownText(t, phase, text);
    } else {
      var n := NextSequence(CloseTail(t, at));
      TidyNext(t, at, Segment("text-" + runId + "-" + SequenceText(n), n, Text(phase, Opening(text, at))));
    }
  }

  lemma GrownText(t: Timeline, phase: Phase, text: string)
    requires Tidy(t) && t != [] && t[|t| - 1].body.Text?
    ensures var tail := t[|t| - 1];
            var grown := tail.(body := Text(phase, tail.body.answer.(text := tail.body.answer.text + text)));
            Adds(t, t[..|t| - 1] + [grown], "", text, Display(Rows(t)))
  {
    hide Adds, Tidy, Display, Rows;
    var tail := t[|t| - 1];
    assert ThoughtOf(tail) + "" == ThoughtOf(tail);
    TidyGrown(t, tail.(body := Text(phase, tail.body.answer.(text := tail.body.answer.text + text))), "", text);
  }

  lemma ToolTidy(runId: string, t: Timeline, call: string, name: string, args: Option<string>, at: string)
    requires Tidy(t)
    ensures Adds(t, StartTool(runId, t, call, name, args, at), "", "",
                 Shown(Display(Rows(t)), ToolStarted(call, name, args, at)))
  {
    hide Adds, Tidy, Bound, CloseTail, NextSequence, Display, Rows, RowIndex, FindTool, NormalizePhases;
    SameFind(t, call);
    match FindTool(t, call) {
      case Some(i) =>
        DisplayAt(t, i, t[i]);
        TidyReplaced(t, i, StartTool(runId, t, call, name, args, at)[i]);
      case None =>
        TidyNext(t, at, Segment("tool-" + runId + "-" + call, NextSequence(CloseTail(t, at)),
                                Tool(ToolRow(call, name, args, None, false, Running, at, None))));
    }
  }

  lemma CompleteTidy(t: Timeline, call: string, output: string, failed: bool, at: string)
    requires Tidy(t)
    ensures Adds(t, CompleteTool(t, call, output, failed, at), "", "",
                 Shown(Display(Rows(t)), ToolCompleted(call, output, failed, at)))
  {
    hide Adds, Tidy, Display, Rows, RowIndex, FindTool;
    SameFind(t, call);
    match FindTool(t, call) {
      case Some(i) =>
        DisplayAt(t, i, t[i]);
        TidyReplaced(t, i, CompleteTool(t, call, output, failed, at)[i]);
      case None => NothingAdded(t);
    }
  }

  lemma StatusTidy(runId: string, t: Timeline, row: StatusRow)
    requires Tidy(t)
    ensures Adds(t, AppendStatus(runId, t, row), "", "", Shown(Display(Rows(t)), StatusNoted(row)))
  {
    hide Adds, Tidy, Bound, CloseTail, NextSequence, SequenceText, Display, Rows;
    var n := NextSequence(CloseTail(t, row.occurredAt));
    TidyNext(t, row.occurredAt, Segment("status-" + runId + "-" + SequenceText(n), n, Status(row)));
  }

  // ------------------------------------------------------------------- a late text

  /** Where all but a text are numbered by index, thoughts and rows rise. */
  lemma {:induction false} NumberedRises(p: Segment -> bool, r: Timeline)
    requires forall k :: 0 <= k < |r| && p(r[k]) ==> r[k].sequence == k
    ensures SortedBy(Before, Filter(p, r)) && forall k :: 0 <= k < |Filter(p, r)| ==> Filter(p, r)[k].sequence < |r|
  {
    if r != [] {
      NumberedRises(p, r[..|r| - 1]);
      if p(r[|r| - 1]) { RisingSnoc(Filter(p, r[..|r| - 1]), r[|r| - 1]); }
    }
  }

  lemma InsertedRises(c: Timeline, s: Segment)
    requires s.body.Text? && s.sequence >= 0 && (c != [] ==> TopsRest(c))
    ensures Rising(Inserted(c, s))
  {
    InsertedSequences(c, s);
    var i, r := FirstFrom(c, s.sequence), Inserted(c, s);
    hide Inserted, FirstFrom, Filter, SortedBy;
    NumberedRises(IsThought, r);
    forall k | 0 <= k < |r| && Not(Protected)(r[k]) ensures r[k].sequence == k { assert k != i; }
    NumberedRises(Not(Protected), r);
    TopsNumbered(c, r, i);
  }

  lemma TopsNumbered(c: Timeline, r: Timeline, i: nat)
    requires |r| == |c| + 1 && i <= |c| && forall k :: 0 <= k < |r| && k != i ==> r[k].sequence == k
    requires i == |c| && c != [] ==> TopsRest(c) && c[|c| - 1].sequence < r[i].sequence
    requires r[i].body.Text? && r[i].sequence >= 0
    ensures TopsRest(r)
  {
  }

  lemma LateTidy(runId: string, t: Timeline, phase: Phase, text: string, at: string, after: nat)
    requires Tidy(t)
    ensures Adds(t, AppendLateText(runId, t, phase, text, at, after), "", text, Display(Rows(t)))
  {
    hide Adds, Tidy, Bound, CloseTail, NextSequence, SequenceText, Display, Rows, Inserted, Late;
    if text == "" {
      NothingAdded(t);
    } else if Continues(t, phase, after) {
      GrownText(t, phase, text);
    } else {
      LateAnswer(runId, phase, text, at, after);
      InsertedTidy(t, at, Late(runId, phase, text, at, after), text);
    }
  }

  lemma LateAnswer(runId: string, phase: Phase, text: string, at: string, after: int)
    ensures var s := Late(runId, phase, text, at, after);
            s.body.Text? && s.body.answer.text == text && s.sequence == after
  {
    hide SequenceText;
  }

  lemma InsertedTidy(t: Timeline, at: string, s: Segment, text: string)
    requires Tidy(t) && s.body.Text? && s.body.answer.text == text && s.sequence >= 0
    ensures Adds(t, BoundAssistantTimeline(Inserted(CloseTail(t, at), s)), "", text, Display(Rows(t)))
  {
    hide ThinkingText, AnswerText, Rows, Thoughts, SortedBy, Bound, Inserted, Display, FirstFrom, CloseTail, TopsRest;
    var c, i := CloseTail(t, at), FirstFrom(t, s.sequence);
    ClosedTidy(t, at);
    CloseAlike(t, at);
    SamePlace(t, at, s.sequence);
    InsertedAlike(t, c, s);
    AlikeShown(t[..i] + [s] + t[i..], Inserted(c, s));
    ShownAround(t[..i], s, t[i..]);
    assert t[..i] + t[i..] == t;
    InsertedRises(c, s);
    FitsWindow(Inserted(c, s));
    ShownConcat(t[..i], t[i..]);
    assert ThinkingText(t) + "" == ThinkingText(t);
    LettersAround(AnswerText(t[..i]), text, AnswerText(t[i..]));
  }

  lemma LettersAround(a: string, s: string, b: string)
    ensures multiset(a + s + b) == multiset(a + b) + multiset(s)
  {
  }

  // ------------------------------------------------------------------------ runs

  lemma StepTidy(runId: string, t: Timeline, m: MixedInput)
    requires Tidy(t)
    ensures var input := InTurn(m);
            Adds(t, Step(runId, t, m), if input.ThinkingDelta? then input.text else "",
                 if input.TextDelta? then input.text else "", Shown(Display(Rows(t)), input))
  {
    hide Adds, Tidy, AppendThinkingDelta, AppendTextDelta, StartTool, CompleteTool, AppendStatus, CloseTail;
    hide AppendLateText, Display, Rows;
    match m
    case LateDelta(phase, text, at, after) => LateTidy(runId, t, phase, text, at, after);
    case Plain(input) =>
      match input
      case ThinkingDelta(text, at) => ThinkingTidy(runId, t, text, at);
      case TextDelta(phase, text, at) => TextTidy(runId, t, phase, text, at);
      case ToolStarted(call, name, args, at) => ToolTidy(runId, t, call, name, args, at);
      case ToolCompleted(call, output, failed, at) => CompleteTidy(t, call, output, failed, at);
      case StatusNoted(row) => StatusTidy(runId, t, row);
      case Closed(at) => ClosedTidy(t, at);
  }

  lemma EmptyTidy()
    ensures Tidy([]) && ThinkingText([]) == "" && Letters([]) == multiset("") && Display(Rows([])) == []
  {
  }

  /** Over any mixture of inputs: no thinking is lost or reordered, no letter of the answer is
      lost, and the rows are those of the board, as if every text had come in its turn. */
  lemma {:induction false} MixedConservation(runId: string, inputs: seq<MixedInput>)
    ensures var r, given := MixedReplay(runId, inputs), Unplaced(inputs);
            && Tidy(r) && ThinkingText(r) == ThinkingFed(given)
            && multiset(AnswerText(r)) == multiset(AnswerFed(given)) && Display(Rows(r)) == BoardOf(given)
  {
    hide Tidy, Rows, Display, Step, Shown, ThinkingText, AnswerText;
    if inputs == [] {
      EmptyTidy();
    } else {
      var n := |inputs| - 1;
      MixedConservation(runId, inputs[..n]);
      StepTidy(runId, MixedReplay(runId, inputs[..n]), inputs[n]);
      var front := Unplaced(inputs[..n]);
      assert (front + [InTurn(inputs[n])])[..|front|] == front;
      AnswerBag(AnswerFed(front), if InTurn(inputs[n]).TextDelta? then InTurn(inputs[n]).text else "");
    }
  }

  lemma AnswerBag(a: string, b: string)
    ensures multiset(a + b) == multiset(a) + multiset(b)
  {
  }
}
