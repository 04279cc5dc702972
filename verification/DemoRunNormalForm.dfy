/** Serialize-after-parse is a normal form: taking it again changes nothing, as long
    as the list of attempted models is still short enough to be read back. */
module DemoRunNormalForm {
  import opened Results
  import opened Json
  import opened Ordering
  import opened DemoRunForm
  import TimelineBound
  import Notes = CommentaryTimeline

  // ------------------------------------------------------------------- lists

  lemma {:induction false} ParseAllFixed(parse: Json -> Option<Json>, items: seq<Json>)
    requires ParseAll(parse, items).Some?
    requires forall x :: x in items && parse(x).Some? ==> parse(parse(x).value) == parse(x)
    ensures |ParseAll(parse, items).value| == |items|
    ensures ParseAll(parse, ParseAll(parse, items).value) == ParseAll(parse, items)
    ensures forall y :: y in ParseAll(parse, items).value ==> parse(y) == Some(y)
    decreases |items|
  {
    if items != [] {
      var front, last := items[..|items| - 1], items[|items| - 1];
      ParseAllFixed(parse, front);
      var list := ParseAll(parse, items).value;
      assert list[..|list| - 1] == ParseAll(parse, front).value;
      assert last in items;
    }
  }

  lemma {:induction false} MapAllAt(f: Json -> Json, items: seq<Json>)
    ensures |MapAll(f, items)| == |items|
    ensures forall y :: y in MapAll(f, items) ==> exists x :: x in items && y == f(x)
  {
    if items != [] { MapAllAt(f, items[..|items| - 1]); }
  }

  lemma {:induction false} MapAllFixed(f: Json -> Json, items: seq<Json>)
    requires forall x :: x in items ==> f(x) == x
    ensures MapAll(f, items) == items
  {
    if items != [] {
      var front, last := items[..|items| - 1], items[|items| - 1];
      assert MapAll(f, items) == MapAll(f, front) + [f(last)];
      hide MapAll;
      SplitLast(items);
      assert last in items;
      MapAllFixed(f, front);
    }
  }

  // ------------------------------------------------------------ one kind each

  /** A parsed and serialized field reads back as itself. */
  ghost predicate StableOwn(kind: Kind, v: Option<Json>) {
    match ParseOwn(kind, v)
    case Rejected => true
    case Absent => ParseOwn(kind, None) == Absent
    case Present(x) =>
      var y := SerializeField(kind, x);
      ParseOwn(kind, Some(y)).Present? && SerializeField(kind, ParseOwn(kind, Some(y)).value) == y
  }

  lemma StringListStable(max: nat, v: Option<Json>)
    ensures StableOwn(StringList(max), v)
  {
    if v.Some? && v.value.Arr? && ParseAll(ParseString, v.value.items).Some? {
      ParseAllFixed(ParseString, v.value.items);
    }
  }

  lemma SkillSnapshotsStable(v: Option<Json>)
    ensures StableOwn(SkillSnapshots, v)
  {
    if v.Some? && v.value.Arr? && ParseAll(ParseSkillSnapshot, v.value.items).Some? {
      ParseAllFixed(ParseSkillSnapshot, v.value.items);
    }
  }

  /** The keys that a record of a context source always and sometimes has. */
  lemma SourceRecordReads(id: string, kind: string, section: string, disposition: string,
                          content: Option<string>, toolName: Option<string>, tokens: Option<real>)
    ensures var y := SourceRecord(id, kind, section, disposition, content, toolName, tokens);
            && StringAt(y, "id") == Some(id) && StringAt(y, "kind") == Some(kind)
            && StringAt(y, "section") == Some(section) && StringAt(y, "disposition") == Some(disposition)
  {
    var y := SourceRecord(id, kind, section, disposition, content, toolName, tokens);
    assert y.fields["id"] == Str(id) && y.fields["kind"] == Str(kind);
    assert y.fields["section"] == Str(section) && y.fields["disposition"] == Str(disposition);
  }

  lemma SourceRecordOptions(id: string, kind: string, section: string, disposition: string,
                            content: Option<string>, toolName: Option<string>, tokens: Option<real>)
    ensures var y := SourceRecord(id, kind, section, disposition, content, toolName, tokens);
            && StringAt(y, "content") == content && StringAt(y, "toolName") == toolName
            && NumberAt(y, "tokens") == tokens
            && (content.None? ==> y.fields - {"content"} == y.fields)
  {
    var y := SourceRecord(id, kind, section, disposition, content, toolName, tokens);
    assert "content" in y.fields <==> content.Some?;
    assert "toolName" in y.fields <==> toolName.Some?;
    assert "tokens" in y.fields <==> tokens.Some?;
  }

  lemma ContextSourceFixed(x: Json)
    requires ParseContextSource(x).Some?
    ensures ParseContextSource(ParseContextSource(x).value) == ParseContextSource(x)
    ensures WithoutSkillText(ParseContextSource(x).value) == ParseContextSource(x).value
  {
    var kind := StringAt(x, "kind").value;
    SourceRecordReads(StringAt(x, "id").value, kind, StringAt(x, "section").value, StringAt(x, "disposition").value,
                      if kind == "skill-definition" then None else StringAt(x, "content"),
                      StringAt(x, "toolName"), NumberAt(x, "tokens"));
    SourceRecordOptions(StringAt(x, "id").value, kind, StringAt(x, "section").value, StringAt(x, "disposition").value,
                        if kind == "skill-definition" then None else StringAt(x, "content"),
                        StringAt(x, "toolName"), NumberAt(x, "tokens"));
    hide StringAt, NumberAt, SourceRecord;
  }

  lemma ContextSourcesFixed(items: seq<Json>)
    requires ParseAll(ParseContextSource, items).Some?
    ensures var list := ParseAll(ParseContextSource, items).value;
            && |list| == |items| && ParseAll(ParseContextSource, list) == Some(list)
            && MapAll(WithoutSkillText, list) == list
  {
    hide ParseContextSource, WithoutSkillText, MapAll, ParseAll;
    forall x | x in items && ParseContextSource(x).Some?
      ensures ParseContextSource(ParseContextSource(x).value) == ParseContextSource(x)
    {
      ContextSourceFixed(x);
    }
    ParseAllFixed(ParseContextSource, items);
    var list := ParseAll(ParseContextSource, items).value;
    forall y | y in list ensures WithoutSkillText(y) == y {
      ContextSourceFixed(y);
    }
    MapAllFixed(WithoutSkillText, list);
  }

  lemma ContextSourcesStable(v: Option<Json>)
    ensures StableOwn(ContextSources, v)
  {
    hide ParseContextSource, WithoutSkillText, MapAll, ParseAll;
    if v.Some? && v.value.Arr? && ParseAll(ParseContextSource, v.value.items).Some? {
      ContextSourcesFixed(v.value.items);
    }
  }

  /** An image as it is stored: staged, cleaned, without inline data. */
  ghost predicate StoredImage(v: Json) {
    v.Obj? && UsableImage(v) && CleanImage(v) == v && Staged(v) && WithoutData(v) == v
  }

  lemma StoredAfterCleaning(x: Json)
    requires UsableImage(x) && Staged(CleanImage(x))
    ensures StoredImage(WithoutData(CleanImage(x)))
  {
    var name, mimeType := StringAt(x, "name").GetOr("image"), StringAt(x, "mimeType").GetOr("image/png");
    var path, data := StringAt(x, "stagingPath"), StringAt(x, "dataUrl");
    ImageRecordReads(name, mimeType, path, data);
    ImageRecordReads(name, mimeType, path, None);
    hide ImageRecord, WithoutData, StartsWith, Get;
    assert Staged(CleanImage(x)) ==> path.Some? && path.value != "";
  }

  lemma ImageRecordReads(name: string, mimeType: string, stagingPath: Option<string>, dataUrl: Option<string>)
    ensures var image := ImageRecord(name, mimeType, stagingPath, dataUrl);
            && image.Obj? && StringAt(image, "name") == Some(name) && StringAt(image, "mimeType") == Some(mimeType)
            && StringAt(image, "stagingPath") == stagingPath && StringAt(image, "dataUrl") == dataUrl
            && (Staged(image) <==> stagingPath.Some? && stagingPath.value != "")
            && WithoutData(image) == ImageRecord(name, mimeType, stagingPath, None)
  {
    var image := ImageRecord(name, mimeType, stagingPath, dataUrl);
    assert image.fields - {"dataUrl"} == ImageRecord(name, mimeType, stagingPath, None).fields;
  }

  lemma ImagesStable(v: Option<Json>)
    ensures StableOwn(Images, v)
  {
    if v.Some? && v.value.Arr? {
      var usable := Filter(UsableImage, v.value.items);
      var cleaned := MapAll(CleanImage, usable);
      var staged := Filter(Staged, cleaned);
      var stored := MapAll(WithoutData, staged);
      FilterSound(UsableImage, v.value.items);
      MapAllAt(CleanImage, usable);
      FilterSound(Staged, cleaned);
      MapAllAt(WithoutData, staged);
      forall y | y in stored ensures StoredImage(y) {
        var c :| c in staged && y == WithoutData(c);
        var x :| x in usable && c == CleanImage(x);
        StoredAfterCleaning(x);
      }
      FilterAll(UsableImage, stored);
      MapAllFixed(CleanImage, stored);
      FilterAll(Staged, stored);
      MapAllFixed(WithoutData, stored);
    }
  }

  lemma KeptCountsFixed(entries: map<string, Json>)
    ensures var kept := KeptCounts(ValidCounts(entries));
            ValidCounts(kept) == kept && KeptCounts(kept) == kept
  {
    hide FirstKeys;
    var valid := ValidCounts(entries);
    var kept := KeptCounts(valid);
    assert kept.Keys == FirstKeys(valid.Keys, MAX_FAILURE_COUNTS);
    assert FirstKeys(kept.Keys, MAX_FAILURE_COUNTS) == kept.Keys;
  }

  lemma FailureCountsReread(v: Option<Json>)
    ensures ParseFailureCounts(v).Present? ==>
              ParseFailureCounts(Some(ParseFailureCounts(v).value)) == ParseFailureCounts(v)
    ensures !ParseFailureCounts(v).Rejected?
  {
    if v.Some? {
      KeptCountsFixed(Entries(v.value));
      var kept := KeptCounts(ValidCounts(Entries(v.value)));
      assert Entries(Obj(kept)) == kept;
      hide FirstKeys, ValidCounts, Entries, KeptCounts;
    }
  }

  lemma FailureCountsStable(v: Option<Json>)
    ensures StableOwn(FailureCounts, v)
  {
    FailureCountsReread(v);
    assert ParseFailureCounts(None) == Absent;
    hide ParseFailureCounts;
  }

  // ------------------------------------------------------- timeline segments

  ghost predicate Canonical(s: Notes.Segment) {
    s.completedAt != Some("") && (s.afterSequence.Some? ==> s.afterSequence.value >= 0)
  }

  lemma DecodeEncode(s: Notes.Segment)
    requires Canonical(s)
    ensures DecodeSegment(EncodeSegment(s)) == Some(s)
  {
    var e := EncodeSegment(s);
    assert StringAt(e, "id") == Some(s.id) && StringAt(e, "text") == Some(s.text);
    assert StringAt(e, "startedAt") == Some(s.startedAt) && StringAt(e, "completedAt") == s.completedAt;
    if s.afterSequence.Some? {
      assert Get(e, "afterSequence") == Some(Num(s.afterSequence.value as real));
    } else {
      assert Get(e, "afterSequence") == None;
    }
  }

  lemma {:induction false} DecodeEncodeAll(segments: seq<Notes.Segment>)
    requires forall s :: s in segments ==> Canonical(s)
    ensures DecodeSegments(EncodeSegments(segments)) == Some(segments)
  {
    if segments != [] {
      hide Canonical, DecodeSegment, EncodeSegment;
      var front, last := segments[..|segments| - 1], segments[|segments| - 1];
      assert last in segments;
      DecodeEncodeAll(front);
      DecodeEncode(last);
      DecodeMore(EncodeSegments(front), EncodeSegment(last));
      SplitLast(segments);
    }
  }

  lemma DecodeMore(items: seq<Json>, item: Json)
    requires DecodeSegments(items).Some? && DecodeSegment(item).Some?
    ensures DecodeSegments(items + [item]) == Some(DecodeSegments(items).value + [DecodeSegment(item).value])
  {
    hide DecodeSegment;
    assert (items + [item])[..|items|] == items;
  }

  lemma {:induction false} DecodedCanonical(items: seq<Json>)
    requires DecodeSegments(items).Some?
    ensures forall s :: s in DecodeSegments(items).value ==> Canonical(s)
  {
    if items != [] { DecodedCanonical(items[..|items| - 1]); }
  }

  lemma {:induction false} TrimmedCanonical(segments: seq<Notes.Segment>, overflow: nat)
    requires forall s :: s in segments ==> Canonical(s)
    ensures forall s :: s in Notes.TrimFront(segments, overflow) ==> Canonical(s)
    decreases |segments|
  {
    if overflow > 0 && segments != [] {
      assert segments[0] in segments;
      if |segments[0].text| <= overflow { TrimmedCanonical(segments[1..], overflow - |segments[0].text|); }
    }
  }

  lemma BoundedCanonical(segments: seq<Notes.Segment>)
    requires forall s :: s in segments ==> Canonical(s)
    ensures forall s :: s in LastSegments(segments) ==> Canonical(s)
    ensures forall s :: s in Notes.Bounded(segments) ==> Canonical(s)
  {
    var recent := LastSegments(segments);
    var total := Notes.TotalChars(recent);
    TrimmedCanonical(recent, if total > Notes.MAX_COMMENTARY_CHARS then total - Notes.MAX_COMMENTARY_CHARS else 0);
  }

  /** Any bound that is idempotent and keeps segments canonical reads back. */
  lemma ParseSegmentsFixed(bound: seq<Notes.Segment> -> seq<Notes.Segment>, items: seq<Json>)
    requires DecodeSegments(items).Some?
    requires var segments := DecodeSegments(items).value;
             bound(bound(segments)) == bound(segments) && forall s :: s in bound(segments) ==> Canonical(s)
    ensures var once := ParseSegments(bound, Some(Arr(items)));
            once.Present? && ParseSegments(bound, Some(once.value)) == once
  {
    hide DecodeSegments, EncodeSegments;
    DecodeEncodeAll(bound(DecodeSegments(items).value));
  }

  lemma NoSegments()
    ensures EncodeSegments([]) == [] && DecodeSegments([]) == Some([])
    ensures Notes.Bounded([]) == [] && LastSegments([]) == []
  {
  }

  lemma SegmentsReread(bound: seq<Notes.Segment> -> seq<Notes.Segment>, v: Option<Json>)
    requires bound([]) == []
    requires v.Some? && v.value.Arr? && DecodeSegments(v.value.items).Some? ==>
               var segments := DecodeSegments(v.value.items).value;
               bound(bound(segments)) == bound(segments) && forall s :: s in bound(segments) ==> Canonical(s)
    ensures var once := ParseSegments(bound, v);
            once.Present? ==> ParseSegments(bound, Some(once.value)) == once
    ensures !ParseSegments(bound, v).Absent?
  {
    NoSegments();
    hide DecodeSegments, EncodeSegments, Canonical;
    if v.Some? && v.value.Arr? && DecodeSegments(v.value.items).Some? { ParseSegmentsFixed(bound, v.value.items); }
  }

  /** Both bounds are idempotent and keep decoded segments canonical. */
  lemma BoundsFit(items: seq<Json>)
    requires DecodeSegments(items).Some?
    ensures var segments := DecodeSegments(items).value;
            && Notes.Bounded(Notes.Bounded(segments)) == Notes.Bounded(segments)
            && LastSegments(LastSegments(segments)) == LastSegments(segments)
            && (forall s :: s in LastSegments(segments) ==> Canonical(s))
            && (forall s :: s in Notes.Bounded(segments) ==> Canonical(s))
  {
    var segments := DecodeSegments(items).value;
    hide Notes.Bounded, LastSegments, Canonical;
    DecodedCanonical(items);
    BoundedCanonical(segments);
    Notes.BoundedIdempotent(segments);
    LastTwice(segments);
  }

  lemma LastTwice(segments: seq<Notes.Segment>)
    ensures LastSegments(LastSegments(segments)) == LastSegments(segments)
  {
  }

  lemma SegmentsStable(v: Option<Json>)
    ensures StableOwn(CommentarySegments, v) && StableOwn(ReasoningSegments, v)
  {
    hide Notes.Bounded, LastSegments, DecodeSegments, EncodeSegments, Canonical, ParseSegments;
    NoSegments();
    if v.Some? && v.value.Arr? && DecodeSegments(v.value.items).Some? { BoundsFit(v.value.items); }
    SegmentsReread(Notes.Bounded, v);
    SegmentsReread(LastSegments, v);
  }

  // ------------------------------------------------- assistant turn and tools

  lemma BoundedTurnsRemain(items: seq<Json>)
    ensures forall x :: x in BoundTurns(items) ==> x in items
  {
    var protected := Filter(ProseSegment, items);
    var evictable := TimelineBound.Newest(Filter(TimelineBound.Not(ProseSegment), items));
    FilterSound(ProseSegment, items);
    FilterSound(TimelineBound.Not(ProseSegment), items);
    SortPermutes(TurnSegmentLeq, protected + evictable);
    forall x | x in SortBy(TurnSegmentLeq, protected + evictable) ensures x in items {
      assert x in multiset(SortBy(TurnSegmentLeq, protected + evictable));
      assert x in protected + evictable;
      if x in evictable { assert x in Filter(TimelineBound.Not(ProseSegment), items); }
    }
  }

  lemma TimelineStable(v: Option<Json>)
    ensures StableOwn(Timeline, v)
  {
    hide BoundTurns, Filter, TurnSegment;
    NoTurns();
    TimelineReads([]);
    if v.Some? && v.value.Arr? { TimelineReads(v.value.items); }
  }

  /** Bounded turns read back as they are. */
  lemma TimelineReads(items: seq<Json>)
    ensures var bounded := BoundTurns(Filter(TurnSegment, items));
            BoundTurns(Filter(TurnSegment, bounded)) == bounded
  {
    var turns := Filter(TurnSegment, items);
    FilterSound(TurnSegment, items);
    BoundedTurnsRemain(turns);
    FilterAll(TurnSegment, BoundTurns(turns));
    TimelineBound.BoundIdempotent(ProseSegment, TurnSegmentLeq, turns);
    hide TimelineBound.Bound, Filter, TurnSegment;
  }

  lemma NoTurns()
    ensures Filter(TurnSegment, []) == [] && BoundTurns([]) == []
  {
  }

  lemma ToolEventsStable(v: Option<Json>)
    ensures StableOwn(ToolEvents, v)
  {
    ToolEventsReread([]);
    if v.Some? && v.value.Arr? { ToolEventsReread(v.value.items); }
    hide Filter, ToolEvent;
  }

  lemma ToolEventsReread(items: seq<Json>)
    ensures var kept := Filter(ToolEvent, items);
            Filter(ToolEvent, kept) == kept && (items == [] ==> kept == [])
  {
    FilterSound(ToolEvent, items);
    FilterAll(ToolEvent, Filter(ToolEvent, items));
  }

  lemma OwnStable(kind: Kind, v: Option<Json>)
    ensures StableOwn(kind, v)
  {
    match kind
    case StringList(max) => StringListStable(max, v);
    case FailureCounts => FailureCountsStable(v);
    case SkillSnapshots => SkillSnapshotsStable(v);
    case ContextSources => ContextSourcesStable(v);
    case Images => ImagesStable(v);
    case CommentarySegments => SegmentsStable(v);
    case ReasoningSegments => SegmentsStable(v);
    case Timeline => TimelineStable(v);
    case ToolEvents => ToolEventsStable(v);
    case _ =>
  }

  // ------------------------------------------------- fields read with another

  /** The attempted models read back unless there are too many of them by then. */
  lemma AttemptsStable(f: map<string, Json>, g: map<string, Json>)
    requires "modelId" in f && f["modelId"].Str? && Attempts(f).Some?
    requires "modelId" in g && g["modelId"] == f["modelId"]
    requires "attemptedModelIds" in g && g["attemptedModelIds"] == StrList(Attempts(f).value)
    ensures Attempts(g) == if |Attempts(f).value| <= MAX_ATTEMPTS then Attempts(f) else None
  {
    var list := Attempts(f).value;
    AttemptsAre(f);
    UniqueFixed(list);
    StringsRead(list);
    var items := g["attemptedModelIds"].items;
    assert items == StrList(list).items && forall i :: 0 <= i < |items| ==> items[i].Str?;
    hide *;
    AttemptsRead(g, list);
  }

  lemma AttemptsRead(g: map<string, Json>, list: seq<string>)
    requires "modelId" in g && g["modelId"].Str? && g["modelId"].s in list && Unique(list) == list
    requires "attemptedModelIds" in g && g["attemptedModelIds"] == StrList(list)
    ensures Attempts(g) == if |list| <= MAX_ATTEMPTS then Some(list) else None
  {
    StringsRead(list);
    assert g["attemptedModelIds"].Arr? && g["attemptedModelIds"].items == StrList(list).items;
    hide Unique, Strings, StrList;
  }

  lemma StringsRead(list: seq<string>)
    ensures var items := StrList(list).items;
            && |items| == |list| && (forall i :: 0 <= i < |items| ==> items[i].Str?) && Strings(items) == list
  {
  }

  lemma AttemptsAre(f: map<string, Json>)
    requires "modelId" in f && f["modelId"].Str? && Attempts(f).Some?
    ensures NoRepeats(Attempts(f).value) && f["modelId"].s in Attempts(f).value
  {
    var model := f["modelId"].s;
    if "attemptedModelIds" in f {
      var listed := Strings(f["attemptedModelIds"].items);
      var raw := if model in listed then listed else listed + [model];
      UniqueKeeps(raw);
      assert Attempts(f) == Some(Unique(raw)) && model in raw;
      hide *;
    }
  }

  // ------------------------------------------------------------- whole records

  lemma RequiredKinds()
    ensures forall name :: name in REQUIRED_STRINGS ==> Durable(name) && KindOf(name) == RequiredString
    ensures Durable("nextAdapterEventIndex") && KindOf("nextAdapterEventIndex") == RequiredNumber
  {
    AdapterIndexKind();
    forall name | name in REQUIRED_STRINGS ensures Durable(name) && KindOf(name) == RequiredString {
      RequiredKind(name);
    }
  }

  lemma RequiredKind(name: string)
    requires name in REQUIRED_STRINGS
    ensures Durable(name) && KindOf(name) == RequiredString
  {
  }

  lemma AdapterIndexKind()
    ensures Durable("nextAdapterEventIndex") && KindOf("nextAdapterEventIndex") == RequiredNumber
  {
  }

  lemma ProviderIdKind()
    ensures Durable("providerId") && KindOf("providerId") == OptionalString
  {
  }

  lemma AttemptedModelsKind()
    ensures Durable("attemptedModelIds") && KindOf("attemptedModelIds") == AttemptedModels
  {
    hide KindOf;
    assert KindOf("attemptedModelIds") == AttemptedModels by { AttemptedModelsOnly("attemptedModelIds"); }
  }

  lemma AttemptedModelsOnly(name: string)
    ensures KindOf(name) == AttemptedModels <==> name == "attemptedModelIds"
  {
  }

  /** How the normal form `g` of a record `f` holds one field. */
  ghost predicate StoredAs(name: string, f: map<string, Json>, g: map<string, Json>)
    requires HasRequired(f)
  {
    match ParseField(name, f)
    case Rejected => false
    case Absent => name !in g
    case Present(x) => name in g && g[name] == SerializeField(KindOf(name), x)
  }

  lemma NormalFormFields(v: Json)
    requires ParseDemoRun(v).Ok?
    ensures v.Obj? && HasRequired(v.fields)
    ensures NormalForm(v).Obj? && forall name :: name in NormalForm(v).fields ==> Durable(name)
    ensures forall name :: Durable(name) ==> StoredAs(name, v.fields, NormalForm(v).fields)
  {
    hide ParseField, KindOf, SerializeField, FieldNames, HasRequired;
  }

  lemma RequiredSurvive(f: map<string, Json>, g: map<string, Json>)
    requires HasRequired(f) && forall name :: Durable(name) ==> StoredAs(name, f, g)
    ensures HasRequired(g)
    ensures forall name :: name in REQUIRED_STRINGS ==> name in g && g[name] == f[name]
  {
    RequiredKinds();
    hide KindOf, FieldNames, Durable;
    forall name | name in REQUIRED_STRINGS ensures name in g && g[name] == f[name] {
      assert StoredAs(name, f, g);
    }
    assert StoredAs("nextAdapterEventIndex", f, g);
  }

  lemma ProviderIdSurvives(f: map<string, Json>, g: map<string, Json>)
    requires HasRequired(f) && forall name :: Durable(name) ==> StoredAs(name, f, g)
    ensures if "providerId" in f && f["providerId"].Str? then "providerId" in g && g["providerId"] == f["providerId"]
            else "providerId" !in g
  {
    ProviderIdKind();
    hide KindOf, FieldNames, Durable;
    assert StoredAs("providerId", f, g);
  }

  /** A field reads back as it was stored. */
  ghost predicate ReadsBack(name: string, f: map<string, Json>, g: map<string, Json>)
    requires HasRequired(f) && HasRequired(g)
  {
    match (ParseField(name, f), ParseField(name, g))
    case (Absent, Absent) => true
    case (Present(x), Present(y)) => SerializeField(KindOf(name), y) == SerializeField(KindOf(name), x)
    case _ => false
  }

  lemma OwnReadsBack(name: string, f: map<string, Json>, g: map<string, Json>)
    requires HasRequired(f) && HasRequired(g) && StoredAs(name, f, g)
    requires !KindOf(name).ProviderModelId? && !KindOf(name).AttemptedModels? && !KindOf(name).FakeProvider?
    ensures ReadsBack(name, f, g)
  {
    OwnStable(KindOf(name), if name in f then Some(f[name]) else None);
    hide KindOf, ParseOwn, SerializeField;
  }

  lemma ProviderModelReadsBack(name: string, f: map<string, Json>, g: map<string, Json>)
    requires HasRequired(f) && HasRequired(g) && StoredAs(name, f, g) && KindOf(name).ProviderModelId?
    ensures ReadsBack(name, f, g)
  {
    hide KindOf, ParseOwn;
  }

  lemma FakeProviderReadsBack(name: string, f: map<string, Json>, g: map<string, Json>)
    requires HasRequired(f) && HasRequired(g) && StoredAs(name, f, g) && KindOf(name).FakeProvider?
    requires if "providerId" in f && f["providerId"].Str? then "providerId" in g && g["providerId"] == f["providerId"]
             else "providerId" !in g
    ensures ReadsBack(name, f, g)
  {
    hide KindOf, ParseOwn;
  }

  lemma AttemptedModelsReadBack(f: map<string, Json>, g: map<string, Json>)
    requires HasRequired(f) && HasRequired(g) && StoredAs("attemptedModelIds", f, g)
    requires KindOf("attemptedModelIds") == AttemptedModels && g["modelId"] == f["modelId"]
    ensures if AttemptsFit(Obj(f)) then ReadsBack("attemptedModelIds", f, g)
            else ParseField("attemptedModelIds", g).Rejected?
  {
    hide KindOf, ParseOwn;
    AttemptsStable(f, g);
  }

  /** Serialize-after-parse, applied to its own result: it fails exactly when the
      attempted models no longer fit, and otherwise changes nothing. */
  lemma NormalFormStable(v: Json)
    requires ParseDemoRun(v).Ok?
    ensures ParseDemoRun(NormalForm(v)).Ok? <==> AttemptsFit(v)
    ensures AttemptsFit(v) ==> NormalForm(NormalForm(v)) == NormalForm(v)
  {
    var s := NormalForm(v);
    NormalFormFields(v);
    hide *;
    RequiredSurvive(v.fields, s.fields);
    FieldsReadBack(v.fields, s.fields);
    assert Obj(v.fields) == v && Obj(s.fields) == s;
    if AttemptsFit(v) {
      SameFields(v, s);
    } else {
      TooManyAttempts(s);
    }
  }

  lemma TooManyAttempts(s: Json)
    requires s.Obj? && HasRequired(s.fields) && ParseField("attemptedModelIds", s.fields).Rejected?
    ensures ParseDemoRun(s).Err?
  {
    AttemptedModelsKind();
    hide ParseField, KindOf, HasRequired, FieldNames;
  }

  lemma FieldsReadBack(f: map<string, Json>, g: map<string, Json>)
    requires HasRequired(f) && HasRequired(g) && forall name :: Durable(name) ==> StoredAs(name, f, g)
    ensures forall name ::
      Durable(name) && (name != "attemptedModelIds" || AttemptsFit(Obj(f))) ==> ReadsBack(name, f, g)
    ensures !AttemptsFit(Obj(f)) ==> ParseField("attemptedModelIds", g).Rejected?
  {
    ProviderIdSurvives(f, g);
    RequiredSurvive(f, g);
    AttemptedModelsKind();
    AttemptedModelsReadBack(f, g);
    forall name | Durable(name) && (name != "attemptedModelIds" || AttemptsFit(Obj(f))) ensures ReadsBack(name, f, g) {
      AttemptedModelsOnly(name);
      hide *;
      match KindOf(name)
      case ProviderModelId => ProviderModelReadsBack(name, f, g);
      case AttemptedModels =>
      case FakeProvider => FakeProviderReadsBack(name, f, g);
      case _ => OwnReadsBack(name, f, g);
    }
  }

  lemma SameFields(v: Json, s: Json)
    requires ParseDemoRun(v).Ok? && s == NormalForm(v)
    requires v.Obj? && HasRequired(v.fields) && s.Obj? && HasRequired(s.fields)
    requires forall name :: Durable(name) ==> ReadsBack(name, v.fields, s.fields)
    ensures ParseDemoRun(s).Ok? && NormalForm(s) == s
  {
    NormalFormFields(v);
    hide ParseField, KindOf, SerializeField, FieldNames, Durable, HasRequired;
    assert forall name :: Durable(name) ==> !ParseField(name, s.fields).Rejected?;
    assert ParseDemoRun(s).Ok?;
    NormalFormFields(s);
    hide NormalForm;
    SameRecord(v, s, NormalForm(s));
  }

  lemma SameRecord(v: Json, s: Json, t: Json)
    requires v.Obj? && HasRequired(v.fields) && s.Obj? && HasRequired(s.fields) && t.Obj?
    requires forall name :: name in s.fields ==> Durable(name)
    requires forall name :: name in t.fields ==> Durable(name)
    requires forall name :: Durable(name) ==> StoredAs(name, v.fields, s.fields) && StoredAs(name, s.fields, t.fields)
    requires forall name :: Durable(name) ==> ReadsBack(name, v.fields, s.fields)
    ensures s == t
  {
    hide ParseField, KindOf, SerializeField, Durable, HasRequired;
    assert t.fields.Keys == s.fields.Keys;
    assert t.fields == s.fields;
  }
}
