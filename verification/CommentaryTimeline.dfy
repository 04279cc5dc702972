/** The bounded commentary timeline of demo-run.ts. */
module CommentaryTimeline {
  import opened Results
  import opened Ordering

  const MAX_COMMENTARY_SEGMENTS := 128
  const MAX_COMMENTARY_CHARS := 120000

  datatype Segment = Segment(id: string, text: string, startedAt: string,
                             completedAt: Option<string>, afterSequence: Option<int>)

  function TotalChars(segments: seq<Segment>): nat {
    if segments == [] then 0 else |segments[0].text| + TotalChars(segments[1..])
  }

  function TextOf(segments: seq<Segment>): string {
    if segments == [] then "" else segments[0].text + TextOf(segments[1..])
  }

  /** `segments` without the first `overflow` characters of their text. */
  function TrimFront(segments: seq<Segment>, overflow: nat): seq<Segment> {
    if overflow == 0 || segments == [] then segments
    else if |segments[0].text| <= overflow then TrimFront(segments[1..], overflow - |segments[0].text|)
    else [segments[0].(text := segments[0].text[overflow..])] + segments[1..]
  }

  function Bounded(segments: seq<Segment>): seq<Segment> {
    var recent := LastN(segments, MAX_COMMENTARY_SEGMENTS);
    var total := TotalChars(recent);
    TrimFront(recent, if total > MAX_COMMENTARY_CHARS then total - MAX_COMMENTARY_CHARS else 0)
  }

  lemma {:induction false} TotalIsTextLength(segments: seq<Segment>)
    ensures TotalChars(segments) == |TextOf(segments)|
  {
    if segments != [] { TotalIsTextLength(segments[1..]); }
  }

  lemma {:induction false} TrimmedText(segments: seq<Segment>, overflow: nat)
    requires overflow <= TotalChars(segments)
    ensures overflow <= |TextOf(segments)|
    ensures TextOf(TrimFront(segments, overflow)) == TextOf(segments)[overflow..]
    ensures |TrimFront(segments, overflow)| <= |segments|
    decreases |segments|
  {
    TotalIsTextLength(segments);
    if overflow > 0 && segments != [] {
      var first, rest := segments[0], segments[1..];
      if |first.text| <= overflow {
        TrimmedText(rest, overflow - |first.text|);
      } else {
        var r := TrimFront(segments, overflow);
        assert r[1..] == rest && r[0].text == first.text[overflow..];
      }
    }
  }

  /** The trimming loop; it consumes the front of its copy until the text fits. */
  method BoundCommentaryTimeline(segments: seq<Segment>) returns (bounded: seq<Segment>)
    ensures bounded == Bounded(segments)
    ensures |bounded| <= MAX_COMMENTARY_SEGMENTS
    ensures TextOf(bounded) == LastN(TextOf(LastN(segments, MAX_COMMENTARY_SEGMENTS)), MAX_COMMENTARY_CHARS)
  {
    bounded := LastN(segments, MAX_COMMENTARY_SEGMENTS);
    ghost var recent := bounded;
    var totalChars := SumChars(bounded);
    while |bounded| > 0 && totalChars > MAX_COMMENTARY_CHARS
      invariant totalChars == TotalChars(bounded)
      invariant Bounded(segments)
             == TrimFront(bounded, if totalChars > MAX_COMMENTARY_CHARS then totalChars - MAX_COMMENTARY_CHARS else 0)
      decreases |bounded|, totalChars
    {
      var first := bounded[0];
      var overflow := totalChars - MAX_COMMENTARY_CHARS;
      if |first.text| <= overflow {
        totalChars := totalChars - |first.text|;
        bounded := bounded[1..];
      } else {
        bounded := bounded[0 := first.(text := first.text[overflow..])];
        totalChars := totalChars - overflow;
      }
    }
    BoundedText(segments);
  }

  /** The `reduce` that sums the lengths. */
  method SumChars(segments: seq<Segment>) returns (total: nat)
    ensures total == TotalChars(segments)
  {
    total := 0;
    for i := 0 to |segments|
      invariant total + TotalChars(segments[i..]) == TotalChars(segments)
    {
      total := total + |segments[i].text|;
    }
  }

  lemma BoundedText(segments: seq<Segment>)
    ensures |Bounded(segments)| <= MAX_COMMENTARY_SEGMENTS
    ensures TextOf(Bounded(segments))
         == LastN(TextOf(LastN(segments, MAX_COMMENTARY_SEGMENTS)), MAX_COMMENTARY_CHARS)
    ensures TotalChars(Bounded(segments)) <= MAX_COMMENTARY_CHARS
  {
    var recent := LastN(segments, MAX_COMMENTARY_SEGMENTS);
    var total := TotalChars(recent);
    var overflow := if total > MAX_COMMENTARY_CHARS then total - MAX_COMMENTARY_CHARS else 0;
    TotalIsTextLength(recent);
    TrimmedText(recent, overflow);
    TotalIsTextLength(Bounded(segments));
  }

  /** Trimming what has been trimmed changes nothing. */
  lemma BoundedIdempotent(segments: seq<Segment>)
    ensures Bounded(Bounded(segments)) == Bounded(segments)
  {
    BoundedText(segments);
  }

  // ------------------------------------------------------------ growing a run

  /** The delta joins the last segment while that is open and answers the same
      tool boundary; otherwise it opens a segment. */
  function Extended(segments: seq<Segment>, delta: string, segment: Segment): seq<Segment>
    requires segment.text == delta
  {
    var n := |segments| - 1;
    if n >= 0 && segments[n].completedAt.None? && segments[n].afterSequence == segment.afterSequence then
      segments[..n] + [segments[n].(text := segments[n].text + delta)]
    else segments + [segment]
  }

  function AppendDelta(segments: seq<Segment>, delta: string, segment: Segment): seq<Segment>
    requires segment.text == delta
  {
    if delta == "" then segments else Bounded(Extended(segments, delta, segment))
  }

  predicate IsSuffix(a: string, b: string) {
    |a| <= |b| && b[|b| - |a|..] == a
  }

  lemma {:induction false} TextOfConcat(a: seq<Segment>, b: seq<Segment>)
    ensures TextOf(a + b) == TextOf(a) + TextOf(b)
    decreases |a|
  {
    if a == [] {
      assert a + b == b;
    } else {
      assert (a + b)[1..] == a[1..] + b;
      TextOfConcat(a[1..], b);
    }
  }

  lemma BoundedIsSuffix(segments: seq<Segment>)
    ensures IsSuffix(TextOf(Bounded(segments)), TextOf(segments))
  {
    BoundedText(segments);
    hide TextOf, Bounded;
    var recent := LastN(segments, MAX_COMMENTARY_SEGMENTS);
    var older := segments[..|segments| - |recent|];
    assert segments == older + recent;
    TextOfConcat(older, recent);
    TailIsSuffix(TextOf(older), TextOf(recent), MAX_COMMENTARY_CHARS);
  }

  lemma TailIsSuffix(a: string, b: string, n: nat)
    ensures IsSuffix(LastN(b, n), a + b)
  {
    var tail := LastN(b, n);
    assert (a + b)[|a + b| - |tail|..] == tail;
  }

  lemma ExtendedText(segments: seq<Segment>, delta: string, segment: Segment)
    requires segment.text == delta
    ensures TextOf(Extended(segments, delta, segment)) == TextOf(segments) + delta
    ensures |Extended(segments, delta, segment)| <= |segments| + 1
  {
    hide TextOf;
    var n := |segments| - 1;
    OneSegment(segment);
    TextOfConcat(segments, [segment]);
    if n >= 0 {
      var grown := segments[n].(text := segments[n].text + delta);
      assert segments == segments[..n] + [segments[n]];
      OneSegment(segments[n]);
      OneSegment(grown);
      TextOfConcat(segments[..n], [segments[n]]);
      TextOfConcat(segments[..n], [grown]);
    }
  }

  lemma OneSegment(s: Segment)
    ensures TextOf([s]) == s.text
  {
    assert [s][1..] == [];
  }

  lemma SuffixOfExtended(a: string, b: string, whole: string, delta: string)
    requires IsSuffix(a, b + delta) && IsSuffix(b, whole)
    ensures IsSuffix(a, whole + delta)
  {
    assert whole + delta == whole[..|whole| - |b|] + (b + delta);
  }

  /** After any number of deltas the commentary is a suffix of all that was fed, and
      all of it while neither limit is reached. */
  lemma DeltaKeepsSuffix(segments: seq<Segment>, fed: string, delta: string, segment: Segment)
    requires segment.text == delta && IsSuffix(TextOf(segments), fed)
    ensures IsSuffix(TextOf(AppendDelta(segments, delta, segment)), fed + delta)
    ensures |fed + delta| <= MAX_COMMENTARY_CHARS && |segments| < MAX_COMMENTARY_SEGMENTS && TextOf(segments) == fed
            ==> TextOf(AppendDelta(segments, delta, segment)) == fed + delta
  {
    hide TextOf, Bounded;
    if delta == "" {
      assert fed + delta == fed;
    } else {
      var extended := Extended(segments, delta, segment);
      ExtendedText(segments, delta, segment);
      BoundedIsSuffix(extended);
      BoundedText(extended);
      SuffixOfExtended(TextOf(Bounded(extended)), TextOf(segments), fed, delta);
    }
  }

  // --------------------------------------------------- pieces of one delta

  /** `segments` with more text in the last one. */
  function Grown(segments: seq<Segment>, text: string): seq<Segment>
    requires segments != []
  {
    var n := |segments| - 1;
    segments[..n] + [segments[n].(text := segments[n].text + text)]
  }

  lemma {:induction false} GrownTotal(segments: seq<Segment>, text: string)
    requires segments != []
    ensures TotalChars(Grown(segments, text)) == TotalChars(segments) + |text|
    decreases |segments|
  {
    if |segments| > 1 {
      GrownTotal(segments[1..], text);
      assert Grown(segments, text)[1..] == Grown(segments[1..], text);
    } else {
      assert Grown(segments, text)[1..] == [] && segments[1..] == [];
    }
  }

  lemma SingleTotal(segments: seq<Segment>)
    ensures |segments| == 1 ==> TotalChars(segments) == |segments[0].text|
  {
    if |segments| == 1 { assert segments[1..] == []; }
  }

  /** While the last segment keeps some of its text, more text at its end comes to the same. */
  lemma {:induction false} TrimThenGrow(segments: seq<Segment>, overflow: nat, text: string)
    requires segments != [] && overflow < TotalChars(segments) && segments[|segments| - 1].text != ""
    ensures var r := TrimFront(segments, overflow);
            && r != [] && r[|r| - 1].text != ""
            && r[|r| - 1] == segments[|segments| - 1].(text := r[|r| - 1].text)
            && TrimFront(Grown(segments, text), overflow) == Grown(r, text)
    decreases |segments|
  {
    if overflow > 0 && |segments[0].text| <= overflow {
      SingleTotal(segments);
      TrimStep(segments, overflow);
      TrimStepGrown(segments, overflow, text);
      hide TrimFront, TotalChars, Grown;
      TrimThenGrow(segments[1..], overflow - |segments[0].text|, text);
    } else if overflow > 0 {
      FrontTrimmedGrows(segments, overflow, text);
    }
  }

  lemma TrimStep(segments: seq<Segment>, overflow: nat)
    requires segments != [] && 0 < overflow && |segments[0].text| <= overflow
    ensures TrimFront(segments, overflow) == TrimFront(segments[1..], overflow - |segments[0].text|)
    ensures TotalChars(segments) == |segments[0].text| + TotalChars(segments[1..])
  {
  }

  lemma TrimStepGrown(segments: seq<Segment>, overflow: nat, text: string)
    requires |segments| > 1 && 0 < overflow && |segments[0].text| <= overflow
    ensures TrimFront(Grown(segments, text), overflow)
         == TrimFront(Grown(segments[1..], text), overflow - |segments[0].text|)
  {
    assert Grown(segments, text)[1..] == Grown(segments[1..], text);
    hide TotalChars;
  }

  lemma FrontTrimmedGrows(segments: seq<Segment>, overflow: nat, text: string)
    requires segments != [] && 0 < overflow < |segments[0].text| && segments[|segments| - 1].text != ""
    ensures var r := [segments[0].(text := segments[0].text[overflow..])] + segments[1..];
            && r[|r| - 1].text != "" && r[|r| - 1] == segments[|segments| - 1].(text := r[|r| - 1].text)
            && TrimFront(Grown(segments, text), overflow) == Grown(r, text)
  {
    var first := segments[0];
    if |segments| == 1 {
      assert (first.text + text)[overflow..] == first.text[overflow..] + text;
      assert Grown(segments, text)[1..] == [];
    } else {
      assert Grown(segments, text)[1..] == Grown(segments[1..], text);
    }
  }

  /** Trimming never takes the whole of the last segment, while it has text. */
  lemma LastRemains(segments: seq<Segment>)
    requires segments != [] && segments[|segments| - 1].text != ""
    ensures var r := Bounded(segments);
            && r != [] && r[|r| - 1].text != ""
            && r[|r| - 1] == segments[|segments| - 1].(text := r[|r| - 1].text)
  {
    var recent := LastN(segments, MAX_COMMENTARY_SEGMENTS);
    LastCounts(recent);
    var total := TotalChars(recent);
    hide TotalChars, TrimFront;
    TrimThenGrow(recent, if total > MAX_COMMENTARY_CHARS then total - MAX_COMMENTARY_CHARS else 0, "");
  }

  lemma {:induction false} LastCounts(segments: seq<Segment>)
    requires segments != []
    ensures TotalChars(segments) >= |segments[|segments| - 1].text|
    decreases |segments|
  {
    if |segments| > 1 { LastCounts(segments[1..]); }
  }

  function Over(total: nat): nat {
    if total > MAX_COMMENTARY_CHARS then total - MAX_COMMENTARY_CHARS else 0
  }

  lemma BoundedGrown(segments: seq<Segment>, text: string)
    requires segments != []
    ensures var recent := LastN(segments, MAX_COMMENTARY_SEGMENTS);
            Bounded(Grown(segments, text)) == TrimFront(Grown(recent, text), Over(TotalChars(recent) + |text|))
  {
    var recent := LastN(segments, MAX_COMMENTARY_SEGMENTS);
    GrownTotal(recent, text);
    assert LastN(Grown(segments, text), MAX_COMMENTARY_SEGMENTS) == Grown(recent, text);
    hide TrimFront, TotalChars;
  }

  lemma BoundedTotal(segments: seq<Segment>)
    ensures var total := TotalChars(LastN(segments, MAX_COMMENTARY_SEGMENTS));
            TotalChars(Bounded(segments)) == total - Over(total)
  {
    var recent := LastN(segments, MAX_COMMENTARY_SEGMENTS);
    var total := TotalChars(recent);
    TotalIsTextLength(recent);
    TrimmedText(recent, Over(total));
    TotalIsTextLength(Bounded(segments));
    hide TrimFront, TotalChars, TextOf;
  }

  lemma BoundedIsTrim(segments: seq<Segment>)
    ensures var recent := LastN(segments, MAX_COMMENTARY_SEGMENTS);
            Bounded(segments) == TrimFront(recent, Over(TotalChars(recent)))
    ensures LastN(Bounded(segments), MAX_COMMENTARY_SEGMENTS) == Bounded(segments)
  {
    BoundedText(segments);
    hide TrimFront, TotalChars, TextOf;
  }

  /** Text that grows a bounded timeline grows the whole one. */
  lemma BoundThenGrow(segments: seq<Segment>, text: string)
    requires segments != [] && segments[|segments| - 1].text != ""
    ensures Bounded(segments) != []
    ensures Bounded(Grown(Bounded(segments), text)) == Bounded(Grown(segments, text))
  {
    hide TrimFront, TotalChars, TextOf, Grown, Bounded;
    LastRemains(segments);
    BoundedIsTrim(segments);
    BoundedTotal(segments);
    BoundedGrown(segments, text);
    BoundedGrown(Bounded(segments), text);
    var recent := LastN(segments, MAX_COMMENTARY_SEGMENTS);
    var total := TotalChars(recent);
    LastCounts(recent);
    TrimThenGrow(recent, Over(total), text);
    TrimAgain(Grown(recent, text), Over(total), Over(total - Over(total) + |text|));
    assert Over(total) + Over(total - Over(total) + |text|) == Over(total + |text|);
  }

  /** It does not matter in which pieces commentary comes: as long as no tool boundary lies
      between them, two deltas leave the same segments as one. */
  lemma PiecesJoin(segments: seq<Segment>, a: string, b: string, first: Segment, second: Segment)
    requires a != "" && b != "" && first.text == a && second.text == b
    requires first.completedAt.None? && second.afterSequence == first.afterSequence
    ensures AppendDelta(AppendDelta(segments, a, first), b, second)
         == AppendDelta(segments, a + b, first.(text := a + b))
  {
    hide Bounded, Grown, Extended;
    var once := Extended(segments, a, first);
    ExtendedLast(segments, a, first);
    LastRemains(once);
    BoundThenGrow(once, b);
    GrownOnce(segments, a, b, first);
    JoinsLast(Bounded(once), b, second);
  }

  lemma ExtendedLast(segments: seq<Segment>, delta: string, segment: Segment)
    requires delta != "" && segment.text == delta && segment.completedAt.None?
    ensures var r := Extended(segments, delta, segment);
            && r != [] && r[|r| - 1].text != "" && r[|r| - 1].completedAt.None?
            && r[|r| - 1].afterSequence == segment.afterSequence
  {
  }

  /** Behind a closed segment, or across a tool boundary, a delta is a segment of its own. */
  lemma BoundaryOpens(segments: seq<Segment>, delta: string, segment: Segment)
    requires delta != "" && segment.text == delta
    requires segments == [] || segments[|segments| - 1].completedAt.Some?
             || segments[|segments| - 1].afterSequence != segment.afterSequence
    ensures var r := AppendDelta(segments, delta, segment);
            && r != [] && r[|r| - 1] == segment.(text := r[|r| - 1].text)
            && r == Bounded(segments + [segment])
  {
    LastRemains(segments + [segment]);
    hide Bounded;
  }

  lemma JoinsLast(segments: seq<Segment>, delta: string, segment: Segment)
    requires segment.text == delta && segments != []
    requires segments[|segments| - 1].completedAt.None?
    requires segments[|segments| - 1].afterSequence == segment.afterSequence
    ensures Extended(segments, delta, segment) == Grown(segments, delta)
  {
  }

  lemma GrownOnce(segments: seq<Segment>, a: string, b: string, first: Segment)
    requires first.text == a
    ensures Extended(segments, a, first) != []
    ensures Grown(Extended(segments, a, first), b) == Extended(segments, a + b, first.(text := a + b))
  {
    var n := |segments| - 1;
    if n >= 0 && segments[n].completedAt.None? && segments[n].afterSequence == first.afterSequence {
      ConcatAssociative(segments[n].text, a, b);
    }
  }

  lemma {:induction false} TrimAgain(segments: seq<Segment>, a: nat, b: nat)
    ensures TrimFront(TrimFront(segments, a), b) == TrimFront(segments, a + b)
    decreases |segments|
  {
    if a > 0 && segments != [] && |segments[0].text| <= a { TrimAgain(segments[1..], a - |segments[0].text|, b); }
  }
}
