/** What reading a run keeps of its timelines, tools and counters, and which values are runs
    at all: by the names and limits of demo-run.ts alone. */
module DemoRunTurns {
  import opened Results
  import opened Json
  import opened Ordering
  import opened DemoRunForm
  import opened DemoRunNormalForm
  import opened DemoRunLaws
  import opened DemoRunLists
  import TimelineBound
  import Notes = CommentaryTimeline

  // ------------------------------------------- commentary and reasoning segments

  predicate SegmentLike(x: Json) {
    StringAt(x, "id").Some? && StringAt(x, "text").Some? && StringAt(x, "startedAt").Some?
  }

  /** The segment `x` with this text: a completion time unless it is empty, a tool boundary
      if it is a whole number from 0. */
  ghost predicate SegmentAs(x: Json, y: Json, text: string) {
    && SegmentLike(x)
    && Get(y, "id") == Some(Str(StringAt(x, "id").value))
    && Get(y, "text") == Some(Str(text))
    && Get(y, "startedAt") == Some(Str(StringAt(x, "startedAt").value))
    && Get(y, "completedAt") == (match StringAt(x, "completedAt")
                                 case Some(at) => if at == "" then None else Some(Str(at))
                                 case None => None)
    && Get(y, "afterSequence") == (match NumberAt(x, "afterSequence")
                                   case Some(n) => if n >= 0.0 && n == n.Floor as real then Some(Num(n)) else None
                                   case None => None)
    && y.Obj? && y.fields.Keys <= {"id", "text", "startedAt", "completedAt", "afterSequence"}
  }

  /** The texts, one after the other. */
  ghost function TextsOf(items: seq<Json>): string {
    if items == [] then "" else TextsOf(items[..|items| - 1]) + StringAt(items[|items| - 1], "text").GetOr("")
  }

  /** The last segments in their order, the first of them without the front of its text. */
  ghost predicate LastOnes(items: seq<Json>, kept: seq<Json>) {
    && |kept| <= |items|
    && forall i :: 0 <= i < |kept| ==>
         var x := items[|items| - |kept| + i];
         var y := StringAt(kept[i], "text").GetOr("");
         SegmentAs(x, kept[i], y) && (if i > 0 then StringAt(x, "text") == Some(y)
                                      else Notes.IsSuffix(y, StringAt(x, "text").GetOr("")))
  }

  /** Every segment with its text. */
  ghost predicate AllWhole(items: seq<Json>, kept: seq<Json>) {
    && |kept| == |items|
    && forall i :: 0 <= i < |kept| ==> SegmentAs(items[i], kept[i], StringAt(items[i], "text").GetOr(""))
  }

  /** Of the reasoning, the last 128 segments. */
  ghost predicate ReasoningKept(v: Json, out: Json) {
    match Get(v, "reasoningSegments")
    case None => Get(out, "reasoningSegments") == Some(Arr([]))
    case Some(Arr(items)) =>
      && (forall i :: 0 <= i < |items| ==> SegmentLike(items[i]))
      && (match Get(out, "reasoningSegments")
          case Some(Arr(kept)) => AllWhole(if |items| <= 128 then items else items[|items| - 128..], kept)
          case _ => false)
    case _ => false
  }

  /** Of the commentary, the last 120000 characters of the last 128 segments. */
  ghost predicate CommentaryKept(v: Json, out: Json) {
    match Get(v, "commentarySegments")
    case None => Get(out, "commentarySegments") == Some(Arr([]))
    case Some(Arr(items)) =>
      && (forall i :: 0 <= i < |items| ==> SegmentLike(items[i]))
      && (match Get(out, "commentarySegments")
          case Some(Arr(kept)) =>
            && |kept| <= 128 && LastOnes(items, kept)
            && TextsOf(kept) == LastN(TextsOf(LastN(items, 128)), 120000)
            && (|items| <= 128 && |TextsOf(items)| <= 120000 ==> |kept| == |items|)
          case _ => false)
    case _ => false
  }

  lemma SegmentRead(x: Json)
    ensures DecodeSegment(x).Some? <==> SegmentLike(x)
    ensures SegmentLike(x) ==>
              var s := DecodeSegment(x).value;
              Some(s.text) == StringAt(x, "text") && SegmentAs(x, EncodeSegment(s), s.text)
  {
    if SegmentLike(x) { EncodedAs(x, DecodeSegment(x).value); }
  }

  lemma EncodedAs(x: Json, s: Notes.Segment)
    requires DecodeSegment(x) == Some(s)
    ensures SegmentAs(x, EncodeSegment(s), s.text)
  {
    EncodedReads(s);
    hide EncodeSegment;
  }

  lemma EncodedReads(s: Notes.Segment)
    ensures var y := EncodeSegment(s);
            && Get(y, "id") == Some(Str(s.id)) && Get(y, "text") == Some(Str(s.text))
            && Get(y, "startedAt") == Some(Str(s.startedAt))
            && Get(y, "completedAt") == (if s.completedAt.Some? then Some(Str(s.completedAt.value)) else None)
            && Get(y, "afterSequence") ==
               (if s.afterSequence.Some? then Some(Num(s.afterSequence.value as real)) else None)
            && y.Obj? && y.fields.Keys <= {"id", "text", "startedAt", "completedAt", "afterSequence"}
  {
  }

  lemma {:induction false} DecodedAt(items: seq<Json>)
    ensures DecodeSegments(items).Some? <==> forall i :: 0 <= i < |items| ==> SegmentLike(items[i])
    ensures DecodeSegments(items).Some? ==>
              var s := DecodeSegments(items).value;
              |s| == |items| && forall i :: 0 <= i < |items| ==> DecodeSegment(items[i]) == Some(s[i])
  {
    hide DecodeSegment, SegmentLike;
    if items != [] {
      DecodedAt(items[..|items| - 1]);
      SegmentRead(items[|items| - 1]);
    }
  }

  lemma {:induction false} EncodedAt(segments: seq<Notes.Segment>)
    ensures |EncodeSegments(segments)| == |segments|
    ensures forall i :: 0 <= i < |segments| ==> EncodeSegments(segments)[i] == EncodeSegment(segments[i])
  {
    hide EncodeSegment;
    if segments != [] { EncodedAt(segments[..|segments| - 1]); }
  }

  /** The last segments, the first of them without the front of its text. */
  ghost predicate Trimmed(segments: seq<Notes.Segment>, r: seq<Notes.Segment>) {
    var cut := |segments| - |r|;
    && cut >= 0
    && (forall i :: 0 < i < |r| ==> r[i] == segments[cut + i])
    && (r != [] ==> r[0] == segments[cut].(text := r[0].text) && Notes.IsSuffix(r[0].text, segments[cut].text))
  }

  lemma TrimmedTail(segments: seq<Notes.Segment>, recent: seq<Notes.Segment>, r: seq<Notes.Segment>)
    requires |recent| <= |segments| && recent == segments[|segments| - |recent|..] && Trimmed(recent, r)
    ensures Trimmed(segments, r)
  {
    hide Notes.IsSuffix;
  }

  lemma {:induction false} TrimmedAt(segments: seq<Notes.Segment>, overflow: nat)
    ensures Trimmed(segments, Notes.TrimFront(segments, overflow))
    ensures overflow == 0 ==> Notes.TrimFront(segments, overflow) == segments
    decreases |segments|
  {
    if overflow == 0 || segments == [] {
    } else if |segments[0].text| <= overflow {
      TrimmedAt(segments[1..], overflow - |segments[0].text|);
      TrimmedTail(segments, segments[1..], Notes.TrimFront(segments[1..], overflow - |segments[0].text|));
      hide Trimmed;
    } else {
      FrontTrimmed(segments, overflow);
      hide Trimmed;
    }
  }

  lemma FrontTrimmed(segments: seq<Notes.Segment>, overflow: nat)
    requires segments != [] && overflow <= |segments[0].text|
    ensures Trimmed(segments, [segments[0].(text := segments[0].text[overflow..])] + segments[1..])
  {
  }

  lemma {:induction false} TextsDecoded(items: seq<Json>, segments: seq<Notes.Segment>)
    requires |segments| == |items|
    requires forall i :: 0 <= i < |items| ==> StringAt(items[i], "text") == Some(segments[i].text)
    ensures TextsOf(items) == Notes.TextOf(segments)
    decreases |items|
  {
    hide StringAt;
    if items != [] {
      var n := |items| - 1;
      TextsDecoded(items[..n], segments[..n]);
      SplitLast(segments);
      Notes.TextOfConcat(segments[..n], [segments[n]]);
      Notes.OneSegment(segments[n]);
    } else {
      assert segments == [];
    }
  }

  lemma CommentaryKind()
    ensures KindOf("commentarySegments") == CommentarySegments
  {
  }

  lemma ReasoningKind()
    ensures KindOf("reasoningSegments") == ReasoningSegments
  {
  }

  ghost predicate Decodes(items: seq<Json>, segments: seq<Notes.Segment>) {
    |segments| == |items| && forall i :: 0 <= i < |items| ==> DecodeSegment(items[i]) == Some(segments[i])
  }

  lemma ReasoningRead(items: seq<Json>)
    requires DecodeSegments(items).Some?
    ensures forall i :: 0 <= i < |items| ==> SegmentLike(items[i])
    ensures AllWhole(if |items| <= 128 then items else items[|items| - 128..],
                     EncodeSegments(LastSegments(DecodeSegments(items).value)))
  {
    hide DecodeSegments, EncodeSegments, DecodeSegment, SegmentLike, AllWhole, Decodes;
    DecodedAt(items);
    var segments := DecodeSegments(items).value;
    LastDecode(items, segments);
    EncodedWhole(if |items| <= 128 then items else items[|items| - 128..], LastSegments(segments));
  }

  lemma LastDecode(items: seq<Json>, segments: seq<Notes.Segment>)
    requires |segments| == |items| && forall i :: 0 <= i < |items| ==> DecodeSegment(items[i]) == Some(segments[i])
    ensures Decodes(if |items| <= 128 then items else items[|items| - 128..], LastSegments(segments))
  {
    hide DecodeSegment;
  }

  lemma EncodedWhole(items: seq<Json>, segments: seq<Notes.Segment>)
    requires Decodes(items, segments)
    ensures AllWhole(items, EncodeSegments(segments))
  {
    hide DecodeSegment, EncodeSegments, EncodeSegment, SegmentAs;
    EncodedAt(segments);
    var kept := EncodeSegments(segments);
    forall i | 0 <= i < |kept| ensures SegmentAs(items[i], kept[i], StringAt(items[i], "text").GetOr("")) {
      WholeAt(items[i], segments[i]);
    }
  }

  lemma WholeAt(x: Json, s: Notes.Segment)
    requires DecodeSegment(x) == Some(s)
    ensures SegmentAs(x, EncodeSegment(s), StringAt(x, "text").GetOr(""))
  {
    SegmentRead(x);
    hide DecodeSegment, EncodeSegment, SegmentAs;
  }

  lemma CommentaryRead(items: seq<Json>)
    requires DecodeSegments(items).Some?
    ensures var kept := EncodeSegments(Notes.Bounded(DecodeSegments(items).value));
            && |kept| <= 128 && LastOnes(items, kept)
            && (|items| <= 128 && |TextsOf(items)| <= 120000 ==> |kept| == |items|)
  {
    DecodedAt(items);
    var segments := DecodeSegments(items).value;
    hide DecodeSegments, EncodeSegments, DecodeSegment, LastOnes, TextsOf, Notes.Bounded, Notes.TextOf, Trimmed;
    BoundedParts(segments);
    EncodedAt(Notes.Bounded(segments));
    TextsRead(items, segments);
    BoundedAs(items, segments, Notes.Bounded(segments));
  }

  lemma BoundedParts(segments: seq<Notes.Segment>)
    ensures |Notes.Bounded(segments)| <= 128 && Trimmed(segments, Notes.Bounded(segments))
    ensures |segments| <= 128 && |Notes.TextOf(segments)| <= 120000 ==> |Notes.Bounded(segments)| == |segments|
  {
    var recent := LastN(segments, Notes.MAX_COMMENTARY_SEGMENTS);
    var total := Notes.TotalChars(recent);
    var overflow := if total > Notes.MAX_COMMENTARY_CHARS then total - Notes.MAX_COMMENTARY_CHARS else 0;
    TrimmedAt(recent, overflow);
    Notes.TotalIsTextLength(recent);
    assert Notes.Bounded(segments) == Notes.TrimFront(recent, overflow);
    assert |Notes.TrimFront(recent, overflow)| <= |recent| <= 128;
    hide Notes.TrimFront, Notes.TotalChars, Notes.TextOf, Notes.Bounded, Trimmed;
    TrimmedTail(segments, recent, Notes.TrimFront(recent, overflow));
  }

  lemma TextsRead(items: seq<Json>, segments: seq<Notes.Segment>)
    requires |segments| == |items| && forall i :: 0 <= i < |items| ==> DecodeSegment(items[i]) == Some(segments[i])
    ensures TextsOf(items) == Notes.TextOf(segments)
  {
    forall i | 0 <= i < |items| ensures StringAt(items[i], "text") == Some(segments[i].text) {
      SegmentRead(items[i]);
      hide DecodeSegment, SegmentAs;
    }
    hide DecodeSegment;
    TextsDecoded(items, segments);
  }

  /** What trimming leaves of the decoded segments, encoded. */
  lemma BoundedAs(items: seq<Json>, segments: seq<Notes.Segment>, bounded: seq<Notes.Segment>)
    requires |segments| == |items| && forall i :: 0 <= i < |items| ==> DecodeSegment(items[i]) == Some(segments[i])
    requires Trimmed(segments, bounded)
    ensures LastOnes(items, EncodeSegments(bounded))
  {
    EncodedAt(bounded);
    var kept := EncodeSegments(bounded);
    hide EncodeSegments, DecodeSegment, EncodeSegment, SegmentAs, Notes.IsSuffix;
    forall i | 0 <= i < |kept|
      ensures var x := items[|items| - |kept| + i];
              var y := StringAt(kept[i], "text").GetOr("");
              && SegmentAs(x, kept[i], y)
              && (if i > 0 then StringAt(x, "text") == Some(y) else Notes.IsSuffix(y, StringAt(x, "text").GetOr("")))
    {
      RetextedAs(items[|items| - |kept| + i], bounded[i].text);
    }
  }

  lemma RetextedAs(x: Json, text: string)
    requires DecodeSegment(x).Some?
    ensures var s := DecodeSegment(x).value;
            && SegmentAs(x, EncodeSegment(s.(text := text)), text)
            && StringAt(x, "text") == Some(s.text)
            && StringAt(EncodeSegment(s.(text := text)), "text") == Some(text)
  {
    var s := DecodeSegment(x).value;
    EncodedReads(s);
    EncodedReads(s.(text := text));
    SegmentRead(x);
    hide DecodeSegment, EncodeSegment;
  }

  lemma {:induction false} TextsEncoded(segments: seq<Notes.Segment>)
    ensures TextsOf(EncodeSegments(segments)) == Notes.TextOf(segments)
  {
    EncodedAt(segments);
    var items := EncodeSegments(segments);
    forall i | 0 <= i < |items| ensures StringAt(items[i], "text") == Some(segments[i].text) {
      EncodedReads(segments[i]);
      hide EncodeSegment;
    }
    hide EncodeSegments, EncodeSegment;
    TextsDecoded(items, segments);
  }

  lemma CommentaryTexts(items: seq<Json>)
    requires DecodeSegments(items).Some?
    ensures TextsOf(EncodeSegments(Notes.Bounded(DecodeSegments(items).value)))
         == LastN(TextsOf(LastN(items, 128)), 120000)
  {
    DecodedAt(items);
    var segments := DecodeSegments(items).value;
    hide DecodeSegments, EncodeSegments, DecodeSegment, TextsOf, Notes.TextOf;
    Notes.BoundedText(segments);
    TextsEncoded(Notes.Bounded(segments));
    TextsRead(LastN(items, 128), LastN(segments, 128));
  }

  lemma SegmentsField(v: Option<Json>)
    ensures match ParseOwn(ReasoningSegments, v)
            case Rejected => !(v.None? || (v.value.Arr? && DecodeSegments(v.value.items).Some?))
            case Absent => false
            case Present(y) =>
              if v.None? then y == Arr([])
              else v.value.Arr? && DecodeSegments(v.value.items).Some?
                   && y == Arr(EncodeSegments(LastSegments(DecodeSegments(v.value.items).value)))
    ensures match ParseOwn(CommentarySegments, v)
            case Rejected => !(v.None? || (v.value.Arr? && DecodeSegments(v.value.items).Some?))
            case Absent => false
            case Present(y) =>
              if v.None? then y == Arr([])
              else v.value.Arr? && DecodeSegments(v.value.items).Some?
                   && y == Arr(EncodeSegments(Notes.Bounded(DecodeSegments(v.value.items).value)))
  {
    hide DecodeSegments, EncodeSegments, LastSegments, Notes.Bounded;
  }

  lemma ReasoningField(v: Json)
    requires ParseDemoRun(v).Ok?
    ensures Get(ParseDemoRun(v).value, "reasoningSegments")
         == Parsed(ParseOwn(ReasoningSegments, Get(v, "reasoningSegments")))
    ensures Get(NormalForm(v), "reasoningSegments") == Get(ParseDemoRun(v).value, "reasoningSegments")
    ensures !ParseOwn(ReasoningSegments, Get(v, "reasoningSegments")).Rejected?
  {
    ReasoningKind();
    OtherIsDurable("reasoningSegments");
    hide ParseDemoRun, NormalForm, Durable, KindOf, ParseOwn;
    OwnStands(v, "reasoningSegments", ReasoningSegments);
  }

  lemma CommentaryField(v: Json)
    requires ParseDemoRun(v).Ok?
    ensures Get(ParseDemoRun(v).value, "commentarySegments")
         == Parsed(ParseOwn(CommentarySegments, Get(v, "commentarySegments")))
    ensures Get(NormalForm(v), "commentarySegments") == Get(ParseDemoRun(v).value, "commentarySegments")
    ensures !ParseOwn(CommentarySegments, Get(v, "commentarySegments")).Rejected?
  {
    CommentaryKind();
    OtherIsDurable("commentarySegments");
    hide ParseDemoRun, NormalForm, Durable, KindOf, ParseOwn;
    OwnStands(v, "commentarySegments", CommentarySegments);
  }

  lemma ReasoningConserved(v: Json)
    requires ParseDemoRun(v).Ok?
    ensures ReasoningKept(v, ParseDemoRun(v).value) && ReasoningKept(v, NormalForm(v))
  {
    hide ParseDemoRun, NormalForm, ParseOwn, DecodeSegments, EncodeSegments, LastSegments, AllWhole, SegmentLike;
    ReasoningField(v);
    SegmentsField(Get(v, "reasoningSegments"));
    match Get(v, "reasoningSegments")
    case Some(Arr(items)) => ReasoningRead(items);
    case _ =>
  }

  lemma CommentaryConserved(v: Json)
    requires ParseDemoRun(v).Ok?
    ensures CommentaryKept(v, ParseDemoRun(v).value) && CommentaryKept(v, NormalForm(v))
  {
    hide ParseDemoRun, NormalForm, ParseOwn, DecodeSegments, EncodeSegments, Notes.Bounded, LastOnes, SegmentLike,
      TextsOf;
    CommentaryField(v);
    SegmentsField(Get(v, "commentarySegments"));
    match Get(v, "commentarySegments")
    case Some(Arr(items)) =>
      CommentaryRead(items);
      CommentaryTexts(items);
      DecodedAt(items);
    case _ =>
  }

  // --------------------------------------------------- the turn and its tools

  predicate TurnRow(x: Json) {
    StringAt(x, "id").Some? && NumberAt(x, "sequence").Some? && (ProseRow(x) || OtherKind(x))
  }

  predicate ProseRow(x: Json) {
    && StringAt(x, "id").Some? && NumberAt(x, "sequence").Some?
    && (StringAt(x, "kind") == Some("thinking") || StringAt(x, "kind") == Some("text"))
  }

  predicate OtherRow(x: Json) {
    StringAt(x, "id").Some? && NumberAt(x, "sequence").Some? && OtherKind(x)
  }

  predicate OtherKind(x: Json) {
    StringAt(x, "kind") == Some("tool") || StringAt(x, "kind") == Some("status")
  }

  predicate ToolRow(x: Json) {
    (StringAt(x, "kind") == Some("tool-call") || StringAt(x, "kind") == Some("tool-result"))
    && StringAt(x, "toolId").Some?
  }

  ghost function Listed(v: Json, name: string): seq<Json> {
    match Get(v, name) case Some(Arr(items)) => items case _ => []
  }

  /** All prose and the newest 512 of the other rows; in their places when nothing is dropped,
      and otherwise by sequence. */
  ghost predicate TurnsKept(v: Json, out: Json) {
    var items := Listed(v, "assistantTimeline");
    match Get(out, "assistantTimeline")
    case Some(Arr(rows)) => TurnsAs(items, rows)
    case _ => false
  }

  ghost predicate ToolsKept(v: Json, out: Json) {
    Get(out, "kernelToolEvents") == Some(Arr(Filter(ToolRow, Listed(v, "kernelToolEvents"))))
  }

  lemma RowsAre(x: Json)
    ensures TurnSegment(x) <==> TurnRow(x)
    ensures TurnSegment(x) && ProseSegment(x) <==> ProseRow(x)
    ensures TurnSegment(x) && !ProseSegment(x) <==> OtherRow(x)
  {
  }

  lemma ToolsAre(x: Json)
    ensures ToolEvent(x) <==> ToolRow(x)
  {
  }

  lemma {:induction false} FilterTwice(p: Json -> bool, q: Json -> bool, r: Json -> bool, s: seq<Json>)
    requires forall x :: r(x) <==> p(x) && q(x)
    ensures Filter(q, Filter(p, s)) == Filter(r, s)
  {
    if s != [] {
      var front, last := s[..|s| - 1], s[|s| - 1];
      FilterTwice(p, q, r, front);
      SplitLast(s);
      FilterMore(p, front, last);
      FilterMore(r, front, last);
      FilterMore(q, Filter(p, front), last);
      hide Filter;
    }
  }

  lemma {:induction false} FilterAlike(p: Json -> bool, q: Json -> bool, s: seq<Json>)
    requires forall x :: p(x) <==> q(x)
    ensures Filter(p, s) == Filter(q, s)
  {
    if s != [] { FilterAlike(p, q, s[..|s| - 1]); }
  }

  /** What a bound keeps, part by part. */
  lemma BoundKeepsNewest<T(!new)>(prose: T -> bool, leq: (T, T) -> bool, timeline: seq<T>)
    ensures var others := Filter(TimelineBound.Not(prose), timeline);
            var bounded := TimelineBound.Bound(prose, leq, timeline);
            && multiset(Filter(TimelineBound.Not(prose), bounded)) == multiset(LastN(others, 512))
            && (|others| <= 512 ==> bounded == timeline)
            && (|others| > 512 ==>
                  bounded == SortBy(leq, Filter(prose, timeline) + LastN(others, 512)))
  {
    var others := Filter(TimelineBound.Not(prose), timeline);
    TimelineBound.FilterLengths(prose, timeline);
    TimelineBound.KeptParts(prose, timeline);
    hide Filter, SortBy;
    if |others| > 512 {
      var kept := Filter(prose, timeline) + LastN(others, 512);
      SortPermutes(leq, kept);
      TimelineBound.FilterOfPermutation(TimelineBound.Not(prose), SortBy(leq, kept), kept);
    }
  }

  lemma ByIdTotal(a: Json, b: Json)
    ensures StringLeq(StringAt(a, "id").GetOr(""), StringAt(b, "id").GetOr(""))
         || StringLeq(StringAt(b, "id").GetOr(""), StringAt(a, "id").GetOr(""))
  {
    StringLeqTotal(StringAt(a, "id").GetOr(""), StringAt(b, "id").GetOr(""));
  }

  lemma TurnOrderTotal()
    ensures TotalPreorder(TurnSegmentLeq)
  {
    hide StringLeq, StringAt, SequenceOf;
    forall a, b ensures TurnSegmentLeq(a, b) || TurnSegmentLeq(b, a) {
      ByIdTotal(a, b);
    }
    forall a, b, c | TurnSegmentLeq(a, b) && TurnSegmentLeq(b, c) ensures TurnSegmentLeq(a, c) {
      var i, j, k := StringAt(a, "id").GetOr(""), StringAt(b, "id").GetOr(""), StringAt(c, "id").GetOr("");
      if StringLeq(i, j) && StringLeq(j, k) { StringLeqTransitive(i, j, k); }
    }
  }

  lemma SortedBySequence(s: seq<Json>)
    ensures forall i, j :: 0 <= i < j < |SortBy(TurnSegmentLeq, s)| ==>
              var sorted := SortBy(TurnSegmentLeq, s);
              NumberAt(sorted[i], "sequence").GetOr(0.0) <= NumberAt(sorted[j], "sequence").GetOr(0.0)
  {
    TurnOrderTotal();
    SortSorts(TurnSegmentLeq, s);
    var sorted := SortBy(TurnSegmentLeq, s);
    forall i, j | 0 <= i < j < |sorted|
      ensures NumberAt(sorted[i], "sequence").GetOr(0.0) <= NumberAt(sorted[j], "sequence").GetOr(0.0)
    {
      assert TurnSegmentLeq(sorted[i], sorted[j]);
    }
  }

  ghost predicate TurnsAs(items: seq<Json>, rows: seq<Json>) {
    && multiset(Filter(ProseRow, rows)) == multiset(Filter(ProseRow, items))
    && multiset(Filter(OtherRow, rows)) == multiset(LastN(Filter(OtherRow, items), 512))
    && |rows| == |Filter(ProseRow, rows)| + |Filter(OtherRow, rows)|
    && (if |Filter(OtherRow, items)| <= 512 then rows == Filter(TurnRow, items)
        else forall i, j :: 0 <= i < j < |rows| ==>
               NumberAt(rows[i], "sequence").GetOr(0.0) <= NumberAt(rows[j], "sequence").GetOr(0.0))
  }

  lemma RowsSplit(rows: seq<Json>)
    requires forall x :: x in rows ==> TurnSegment(x)
    ensures Filter(ProseRow, rows) == Filter(ProseSegment, rows)
    ensures Filter(OtherRow, rows) == Filter(TimelineBound.Not(ProseSegment), rows)
  {
    FilterAll(TurnSegment, rows);
    forall x ensures ProseRow(x) <==> TurnSegment(x) && ProseSegment(x) { RowsAre(x); }
    forall x ensures OtherRow(x) <==> TurnSegment(x) && TimelineBound.Not(ProseSegment)(x) { RowsAre(x); }
    hide Filter, ProseRow, OtherRow, TurnSegment, ProseSegment;
    FilterTwice(TurnSegment, ProseSegment, ProseRow, rows);
    FilterTwice(TurnSegment, TimelineBound.Not(ProseSegment), OtherRow, rows);
  }

  lemma TurnsRead(items: seq<Json>)
    ensures TurnsAs(items, BoundTurns(Filter(TurnSegment, items)))
  {
    var turns := Filter(TurnSegment, items);
    var rows := BoundTurns(turns);
    FilterSound(TurnSegment, items);
    BoundedTurnsRemain(turns);
    RowsSplit(rows);
    TimelineBound.FilterLengths(ProseSegment, rows);
    TimelineBound.BoundKeepsProse(ProseSegment, TurnSegmentLeq, turns);
    BoundKeepsNewest(ProseSegment, TurnSegmentLeq, turns);
    forall x ensures ProseRow(x) <==> TurnSegment(x) && ProseSegment(x) { RowsAre(x); }
    forall x ensures OtherRow(x) <==> TurnSegment(x) && TimelineBound.Not(ProseSegment)(x) { RowsAre(x); }
    forall x ensures TurnRow(x) <==> TurnSegment(x) { RowsAre(x); }
    hide Filter, ProseRow, OtherRow, TurnRow, TurnSegment, ProseSegment, TimelineBound.Bound, TurnSegmentLeq, SortBy;
    FilterTwice(TurnSegment, ProseSegment, ProseRow, items);
    FilterTwice(TurnSegment, TimelineBound.Not(ProseSegment), OtherRow, items);
    FilterAlike(TurnRow, TurnSegment, items);
    SortedBySequence(Filter(ProseSegment, turns) + LastN(Filter(TimelineBound.Not(ProseSegment), turns), 512));
  }

  lemma TimelineKind()
    ensures KindOf("assistantTimeline") == Timeline
  {
  }

  lemma ToolEventsKind()
    ensures KindOf("kernelToolEvents") == ToolEvents
  {
  }

  lemma TurnsField(v: Json)
    requires ParseDemoRun(v).Ok?
    ensures Get(ParseDemoRun(v).value, "assistantTimeline") == Parsed(ParseOwn(Timeline, Get(v, "assistantTimeline")))
    ensures Get(NormalForm(v), "assistantTimeline") == Get(ParseDemoRun(v).value, "assistantTimeline")
    ensures !ParseOwn(Timeline, Get(v, "assistantTimeline")).Rejected?
  {
    TimelineKind();
    OtherIsDurable("assistantTimeline");
    hide ParseDemoRun, NormalForm, Durable, KindOf, ParseOwn;
    OwnStands(v, "assistantTimeline", Timeline);
  }

  lemma ToolsField(v: Json)
    requires ParseDemoRun(v).Ok?
    ensures Get(ParseDemoRun(v).value, "kernelToolEvents") == Parsed(ParseOwn(ToolEvents, Get(v, "kernelToolEvents")))
    ensures Get(NormalForm(v), "kernelToolEvents") == Get(ParseDemoRun(v).value, "kernelToolEvents")
    ensures !ParseOwn(ToolEvents, Get(v, "kernelToolEvents")).Rejected?
  {
    ToolEventsKind();
    OtherIsDurable("kernelToolEvents");
    hide ParseDemoRun, NormalForm, Durable, KindOf, ParseOwn;
    OwnStands(v, "kernelToolEvents", ToolEvents);
  }

  lemma TurnsParsed(v: Option<Json>)
    ensures ParseOwn(Timeline, v) ==
            Present(Arr(BoundTurns(Filter(TurnSegment, if v.Some? && v.value.Arr? then v.value.items else []))))
  {
    NoTurns();
    hide BoundTurns, Filter;
  }

  lemma TurnsConserved(v: Json)
    requires ParseDemoRun(v).Ok?
    ensures TurnsKept(v, ParseDemoRun(v).value) && TurnsKept(v, NormalForm(v))
  {
    hide ParseDemoRun, NormalForm, BoundTurns, Filter, TurnsAs, ParseOwn;
    TurnsField(v);
    TurnsParsed(Get(v, "assistantTimeline"));
    TurnsRead(Listed(v, "assistantTimeline"));
  }

  lemma ToolsParsed(v: Option<Json>)
    ensures ParseOwn(ToolEvents, v) ==
            Present(Arr(Filter(ToolRow, if v.Some? && v.value.Arr? then v.value.items else [])))
  {
    forall x ensures ToolEvent(x) <==> ToolRow(x) { ToolsAre(x); }
    FilterSound(ToolRow, []);
    hide ToolEvent, ToolRow;
    if v.Some? && v.value.Arr? { FilterAlike(ToolEvent, ToolRow, v.value.items); }
  }

  lemma ToolsConserved(v: Json)
    requires ParseDemoRun(v).Ok?
    ensures ToolsKept(v, ParseDemoRun(v).value) && ToolsKept(v, NormalForm(v))
  {
    hide ParseDemoRun, NormalForm, Filter, ParseOwn;
    ToolsField(v);
    ToolsParsed(Get(v, "kernelToolEvents"));
  }
}
