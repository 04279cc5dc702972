/** What reading a run keeps of its models, its sources, its images and its timelines, and
    which values are runs at all: by the names and limits of demo-run.ts alone. */
module DemoRunLists {
  import opened Results
  import opened Json
  import opened Ordering
  import opened DemoRunForm
  import opened DemoRunNormalForm
  import opened DemoRunLaws

  // ------------------------------------------------------------------ models

  /** Nothing that counts as a provider: missing, null, false, zero or empty. */
  ghost predicate NoProvider(v: Json) {
    match Get(v, "providerId")
    case None => true
    case Some(x) => x == Null || x == Bool(false) || x == Num(0.0) || x == Str("")
  }

  /** What was listed, and the model itself unless it was. */
  ghost function WithModel(v: Json): seq<Json> {
    var listed := match Get(v, "attemptedModelIds") case Some(Arr(items)) => items case _ => [];
    var model := Str(StringAt(v, "modelId").GetOr(""));
    if model in listed then listed else listed + [model]
  }

  /** The elements of `full` once each, in the order in which they first appear. */
  ghost predicate OnceEach(full: seq<Json>, kept: seq<Json>) {
    && (forall x :: x in kept <==> x in full)
    && NoRepeats(kept)
    && forall i, j, q :: 0 <= i < j < |kept| && 0 <= q < |full| && full[q] == kept[j] ==> kept[i] in full[..q]
  }

  /** At most 256 strings, or nothing; and each of them, and the model, once. */
  ghost predicate AttemptsKept(v: Json, out: Json) {
    && (match Get(v, "attemptedModelIds")
        case None => true
        case Some(Arr(items)) => |items| <= 256 && forall i :: 0 <= i < |items| ==> items[i].Str?
        case _ => false)
    && (match Get(out, "attemptedModelIds")
        case Some(Arr(kept)) => OnceEach(WithModel(v), kept)
        case _ => false)
  }

  ghost predicate FakeKept(v: Json, out: Json) {
    Get(out, "useFakeProvider") == Some(Bool(Get(v, "useFakeProvider") != Some(Bool(false)) && NoProvider(v)))
  }

  ghost predicate ModelsKept(v: Json, out: Json) {
    && TextKept(v, out, "providerModelId", StringAt(v, "modelId").GetOr(""))
    && FakeKept(v, out) && AttemptsKept(v, out)
  }

  lemma ModelKinds()
    ensures KindOf("providerModelId") == ProviderModelId && KindOf("useFakeProvider") == FakeProvider
    ensures KindOf("attemptedModelIds") == AttemptedModels
  {
  }

  lemma {:induction false} UniqueOrder(s: seq<string>)
    ensures forall i, j, q :: 0 <= i < j < |Unique(s)| && 0 <= q < |s| && s[q] == Unique(s)[j] ==>
              Unique(s)[i] in s[..q]
  {
    if s != [] {
      var front, last := s[..|s| - 1], s[|s| - 1];
      UniqueOrder(front);
      UniqueKeeps(front);
      forall i, j, q | 0 <= i < j < |Unique(s)| && 0 <= q < |s| && s[q] == Unique(s)[j]
        ensures Unique(s)[i] in s[..q]
      {
        assert Unique(s)[i] == Unique(front)[i];
        if q < |front| {
          assert front[..q] == s[..q] && front[q] in front;
        } else {
          assert s[..q] == front;
        }
      }
    }
  }

  lemma AsStrings(s: seq<string>, x: Json)
    ensures x in StrList(s).items <==> x.Str? && x.s in s
  {
    if x.Str? && x.s in s {
      var i :| 0 <= i < |s| && s[i] == x.s;
      assert StrList(s).items[i] == x;
    }
  }

  lemma OnceEachListed(raw: seq<string>)
    ensures OnceEach(StrList(raw).items, StrList(Unique(raw)).items)
  {
    UniqueKeeps(raw);
    UniqueOrder(raw);
    hide Unique;
    var full, kept := StrList(raw).items, StrList(Unique(raw)).items;
    forall x ensures x in kept <==> x in full {
      AsStrings(raw, x);
      AsStrings(Unique(raw), x);
    }
    forall i, j, q | 0 <= i < j < |kept| && 0 <= q < |full| && full[q] == kept[j] ensures kept[i] in full[..q] {
      assert StrList(raw[..q]).items == full[..q];
      AsStrings(raw[..q], kept[i]);
    }
  }

  lemma WithModelRead(v: Json)
    requires v.Obj? && HasRequired(v.fields) && Attempts(v.fields).Some?
    ensures exists raw :: Attempts(v.fields) == Some(Unique(raw)) && WithModel(v) == StrList(raw).items
    ensures match Get(v, "attemptedModelIds")
            case None => true
            case Some(Arr(items)) => |items| <= 256 && forall i :: 0 <= i < |items| ==> items[i].Str?
            case _ => false
  {
    var model := v.fields["modelId"].s;
    match Get(v, "attemptedModelIds")
    case None =>
      assert Unique([model]) == [model];
      assert WithModel(v) == StrList([model]).items;
    case Some(x) =>
      var listed := Strings(x.items);
      StringsBack(x.items);
      AsStrings(listed, Str(model));
      var raw := if model in listed then listed else listed + [model];
      assert StrList(raw).items == WithModel(v);
      assert Attempts(v.fields) == Some(Unique(raw));
  }

  lemma StringsBack(items: seq<Json>)
    requires forall i :: 0 <= i < |items| ==> items[i].Str?
    ensures StrList(Strings(items)).items == items
  {
  }

  lemma AttemptsOnceEach(v: Json, out: Json)
    requires v.Obj? && HasRequired(v.fields) && Attempts(v.fields).Some?
    requires Get(out, "attemptedModelIds") == Some(StrList(Attempts(v.fields).value))
    ensures AttemptsKept(v, out)
  {
    WithModelRead(v);
    hide WithModel, OnceEach, Attempts, Unique, HasRequired;
    var raw :| Attempts(v.fields) == Some(Unique(raw)) && WithModel(v) == StrList(raw).items;
    OnceEachListed(raw);
    StringsRead(Unique(raw));
  }

  lemma AttemptsConserved(v: Json)
    requires ParseDemoRun(v).Ok?
    ensures AttemptsKept(v, ParseDemoRun(v).value) && AttemptsKept(v, NormalForm(v))
  {
    ModelKinds();
    OtherIsDurable("attemptedModelIds");
    hide ParseDemoRun, NormalForm, Durable, KindOf, AttemptsKept, ParseOwn, StrList, Unique, Attempts, HasRequired;
    FieldStands(v, "attemptedModelIds");
    AttemptsOnceEach(v, ParseDemoRun(v).value);
    AttemptsOnceEach(v, NormalForm(v));
  }

  lemma FakeField(v: Json)
    requires v.Obj? && HasRequired(v.fields) && KindOf("useFakeProvider") == FakeProvider
    ensures ParseField("useFakeProvider", v.fields)
         == Present(Bool(Get(v, "useFakeProvider") != Some(Bool(false)) && NoProvider(v)))
  {
    hide KindOf, HasRequired;
  }

  lemma FakeConserved(v: Json)
    requires ParseDemoRun(v).Ok?
    ensures FakeKept(v, ParseDemoRun(v).value) && FakeKept(v, NormalForm(v))
  {
    ModelKinds();
    OtherIsDurable("useFakeProvider");
    hide ParseDemoRun, NormalForm, Durable, KindOf, ParseField, HasRequired, NoProvider;
    FieldStands(v, "useFakeProvider");
    FakeField(v);
  }

  lemma ProviderModelField(v: Json)
    requires v.Obj? && HasRequired(v.fields) && KindOf("providerModelId") == ProviderModelId
    ensures ParseField("providerModelId", v.fields)
         == Present(Str(match StringAt(v, "providerModelId")
                        case Some(s) => s
                        case None => StringAt(v, "modelId").GetOr("")))
  {
    hide KindOf;
    assert "modelId" in REQUIRED_STRINGS;
  }

  lemma ProviderModelConserved(v: Json)
    requires ParseDemoRun(v).Ok?
    ensures TextKept(v, ParseDemoRun(v).value, "providerModelId", StringAt(v, "modelId").GetOr(""))
    ensures TextKept(v, NormalForm(v), "providerModelId", StringAt(v, "modelId").GetOr(""))
  {
    ModelKinds();
    OtherIsDurable("providerModelId");
    hide ParseDemoRun, NormalForm, Durable, KindOf, ParseField, HasRequired;
    FieldStands(v, "providerModelId");
    ProviderModelField(v);
  }

  /** The model, its provider and the models tried so far. */
  lemma ModelsConserved(v: Json)
    requires ParseDemoRun(v).Ok?
    ensures ModelsKept(v, ParseDemoRun(v).value) && ModelsKept(v, NormalForm(v))
  {
    hide ParseDemoRun, NormalForm, AttemptsKept, FakeKept, TextKept;
    AttemptsConserved(v);
    FakeConserved(v);
    ProviderModelConserved(v);
  }

  // ------------------------------------------------------- sources of context

  ghost predicate SkillAs(x: Json, y: Json) {
    && StringAt(x, "skillVersionId").Some? && StringAt(x, "contentFingerprint").Some?
    && y == Obj(map["skillVersionId" := Str(StringAt(x, "skillVersionId").value),
                    "contentFingerprint" := Str(StringAt(x, "contentFingerprint").value)])
  }

  ghost predicate SourceAs(x: Json, y: Json) {
    && (forall name :: name in {"id", "kind", "section", "disposition"} ==>
          StringAt(x, name).Some? && Get(y, name) == Some(Str(StringAt(x, name).value)))
    && (StringAt(x, "disposition") == Some("included") || StringAt(x, "disposition") == Some("audit-only"))
    && Get(y, "content") == (if StringAt(x, "kind") != Some("skill-definition") && StringAt(x, "content").Some?
                             then Some(Str(StringAt(x, "content").value)) else None)
    && Get(y, "toolName") == (if StringAt(x, "toolName").Some? then Some(Str(StringAt(x, "toolName").value)) else None)
    && Get(y, "tokens") == (if NumberAt(x, "tokens").Some? then Some(Num(NumberAt(x, "tokens").value)) else None)
    && y.Obj? && y.fields.Keys <= {"id", "kind", "section", "disposition", "content", "toolName", "tokens"}
  }

  /** A list of at most `max` entries, each kept in its place, or missing in both. */
  ghost predicate EachKept(v: Json, out: Json, name: string, max: nat, entry: (Json, Json) -> bool) {
    match (Get(v, name), Get(out, name))
    case (None, None) => true
    case (Some(Arr(items)), Some(Arr(kept))) =>
      |kept| == |items| <= max && forall i :: 0 <= i < |items| ==> entry(items[i], kept[i])
    case _ => false
  }

  lemma SkillSnapshotsKind()
    ensures KindOf("skillSnapshots") == SkillSnapshots
  {
  }

  lemma ContextSourcesKind()
    ensures KindOf("contextSources") == ContextSources
  {
  }

  lemma {:induction false} ParseAllAt(parse: Json -> Option<Json>, items: seq<Json>)
    ensures ParseAll(parse, items).Some? <==> forall i :: 0 <= i < |items| ==> parse(items[i]).Some?
    ensures ParseAll(parse, items).Some? ==>
              |ParseAll(parse, items).value| == |items|
              && forall i :: 0 <= i < |items| ==> ParseAll(parse, items).value[i] == parse(items[i]).value
  {
    if items != [] { ParseAllAt(parse, items[..|items| - 1]); }
  }

  lemma SkillRead(x: Json)
    ensures ParseSkillSnapshot(x).Some? ==> SkillAs(x, ParseSkillSnapshot(x).value)
  {
  }

  lemma SourceRead(x: Json)
    ensures ParseContextSource(x).Some? ==> SourceAs(x, ParseContextSource(x).value)
  {
    if ParseContextSource(x).Some? {
      var kind := StringAt(x, "kind").value;
      var content := if kind == "skill-definition" then None else StringAt(x, "content");
      SourceRecordIs(StringAt(x, "id").value, kind, StringAt(x, "section").value, StringAt(x, "disposition").value,
                     content, StringAt(x, "toolName"), NumberAt(x, "tokens"));
      hide SourceRecord;
    }
  }

  lemma SourceRecordIs(id: string, kind: string, section: string, disposition: string,
                       content: Option<string>, toolName: Option<string>, tokens: Option<real>)
    ensures var y := SourceRecord(id, kind, section, disposition, content, toolName, tokens);
            && Get(y, "id") == Some(Str(id)) && Get(y, "kind") == Some(Str(kind))
            && Get(y, "section") == Some(Str(section)) && Get(y, "disposition") == Some(Str(disposition))
            && Get(y, "content") == (if content.Some? then Some(Str(content.value)) else None)
            && Get(y, "toolName") == (if toolName.Some? then Some(Str(toolName.value)) else None)
            && Get(y, "tokens") == (if tokens.Some? then Some(Num(tokens.value)) else None)
            && y.Obj? && y.fields.Keys <= {"id", "kind", "section", "disposition", "content", "toolName", "tokens"}
  {
    var y := SourceRecord(id, kind, section, disposition, content, toolName, tokens);
    SourceRecordReads(id, kind, section, disposition, content, toolName, tokens);
    SourceRecordOptions(id, kind, section, disposition, content, toolName, tokens);
  }

  lemma SkillsField(v: Json)
    requires ParseDemoRun(v).Ok?
    ensures Get(ParseDemoRun(v).value, "skillSnapshots") == Parsed(ParseOwn(SkillSnapshots, Get(v, "skillSnapshots")))
    ensures Get(NormalForm(v), "skillSnapshots") == Get(ParseDemoRun(v).value, "skillSnapshots")
    ensures !ParseOwn(SkillSnapshots, Get(v, "skillSnapshots")).Rejected?
  {
    SkillSnapshotsKind();
    OtherIsDurable("skillSnapshots");
    hide ParseDemoRun, NormalForm, Durable, KindOf, ParseOwn;
    OwnStands(v, "skillSnapshots", SkillSnapshots);
  }

  lemma SkillsConserved(v: Json)
    requires ParseDemoRun(v).Ok?
    ensures EachKept(v, ParseDemoRun(v).value, "skillSnapshots", 8, SkillAs)
    ensures EachKept(v, NormalForm(v), "skillSnapshots", 8, SkillAs)
  {
    hide ParseDemoRun, NormalForm, ParseOwn, SkillAs;
    SkillsField(v);
    SkillsRead(Get(v, "skillSnapshots"));
  }

  lemma SkillsRead(v: Option<Json>)
    ensures match ParseOwn(SkillSnapshots, v)
            case Rejected => true
            case Absent => v.None?
            case Present(y) =>
              && v.Some? && v.value.Arr? && y.Arr? && |y.items| == |v.value.items| <= 8
              && forall i :: 0 <= i < |y.items| ==> SkillAs(v.value.items[i], y.items[i])
  {
    hide ParseSkillSnapshot, SkillAs;
    match v
    case Some(Arr(items)) =>
      ParseAllAt(ParseSkillSnapshot, items);
      forall i | 0 <= i < |items| && ParseSkillSnapshot(items[i]).Some?
        ensures SkillAs(items[i], ParseSkillSnapshot(items[i]).value)
      {
        SkillRead(items[i]);
      }
    case _ =>
  }

  lemma SourcesRead(v: Option<Json>)
    ensures match ParseOwn(ContextSources, v)
            case Rejected => true
            case Absent => v.None?
            case Present(y) =>
              && v.Some? && v.value.Arr? && y.Arr? && |y.items| == |v.value.items| <= 256
              && (forall i :: 0 <= i < |y.items| ==> SourceAs(v.value.items[i], y.items[i]))
              && SerializeField(ContextSources, y) == y
  {
    hide ParseContextSource, SourceAs, WithoutSkillText;
    match v
    case Some(Arr(items)) =>
      ParseAllAt(ParseContextSource, items);
      forall i | 0 <= i < |items| && ParseContextSource(items[i]).Some?
        ensures SourceAs(items[i], ParseContextSource(items[i]).value)
        ensures WithoutSkillText(ParseContextSource(items[i]).value) == ParseContextSource(items[i]).value
      {
        SourceRead(items[i]);
        ContextSourceFixed(items[i]);
      }
      if ParseAll(ParseContextSource, items).Some? {
        MapAllFixed(WithoutSkillText, ParseAll(ParseContextSource, items).value);
      }
    case _ =>
  }

  lemma SourcesStored(v: Json)
    requires ParseDemoRun(v).Ok?
    ensures Get(ParseDemoRun(v).value, "contextSources") == Parsed(ParseOwn(ContextSources, Get(v, "contextSources")))
    ensures Get(NormalForm(v), "contextSources")
         == Stored(ContextSources, ParseOwn(ContextSources, Get(v, "contextSources")))
    ensures !ParseOwn(ContextSources, Get(v, "contextSources")).Rejected?
  {
    ContextSourcesKind();
    OtherIsDurable("contextSources");
    hide ParseDemoRun, NormalForm, Durable, KindOf, ParseOwn, HasRequired, SerializeField;
    FieldStands(v, "contextSources");
  }

  lemma SourcesConserved(v: Json)
    requires ParseDemoRun(v).Ok?
    ensures EachKept(v, ParseDemoRun(v).value, "contextSources", 256, SourceAs)
    ensures EachKept(v, NormalForm(v), "contextSources", 256, SourceAs)
  {
    hide ParseDemoRun, NormalForm, ParseOwn, SourceAs, SerializeField;
    SourcesStored(v);
    SourcesRead(Get(v, "contextSources"));
  }

  // ------------------------------------------------------------------ images

  /** An image that can be shown: staged, or carried inline. */
  predicate Viewable(x: Json) {
    x.Obj? && (HasPath(x) || (StringAt(x, "dataUrl").Some? && "data:image/" <= StringAt(x, "dataUrl").value))
  }

  predicate HasPath(x: Json) {
    StringAt(x, "stagingPath").Some? && StringAt(x, "stagingPath").value != ""
  }

  ghost predicate ImageAs(x: Json, y: Json, inline: bool) {
    && Get(y, "name") == Some(Str(StringAt(x, "name").GetOr("image")))
    && Get(y, "mimeType") == Some(Str(StringAt(x, "mimeType").GetOr("image/png")))
    && Get(y, "stagingPath") ==
       (if StringAt(x, "stagingPath").Some? then Some(Str(StringAt(x, "stagingPath").value)) else None)
    && Get(y, "dataUrl") ==
       (if inline && StringAt(x, "dataUrl").Some? then Some(Str(StringAt(x, "dataUrl").value)) else None)
    && y.Obj? && y.fields.Keys <= {"name", "mimeType", "stagingPath", "dataUrl"}
  }

  ghost predicate ImagesAs(items: seq<Json>, kept: seq<Json>, inline: bool) {
    |kept| == |items| && forall i :: 0 <= i < |items| ==> ImageAs(items[i], kept[i], inline)
  }

  /** A run read back has the images that can be shown; what is stored, those that are staged,
      without their data. */
  ghost predicate ImagesKept(v: Json, out: Json, stored: bool) {
    match Get(v, "images")
    case Some(Arr(items)) =>
      (match Get(out, "images")
       case Some(Arr(kept)) => ImagesAs(Filter(if stored then HasPath else Viewable, items), kept, !stored)
       case _ => false)
    case _ => Get(out, "images") == None
  }

  lemma UsableIsViewable(x: Json)
    ensures UsableImage(x) <==> Viewable(x)
  {
  }

  lemma CleanAs(x: Json)
    ensures ImageAs(x, CleanImage(x), true)
    ensures ImageAs(x, WithoutData(CleanImage(x)), false)
    ensures Staged(CleanImage(x)) <==> HasPath(x)
  {
    var name, mimeType := StringAt(x, "name").GetOr("image"), StringAt(x, "mimeType").GetOr("image/png");
    ImageRecordIs(name, mimeType, StringAt(x, "stagingPath"), StringAt(x, "dataUrl"));
    ImageRecordIs(name, mimeType, StringAt(x, "stagingPath"), None);
    ImageRecordReads(name, mimeType, StringAt(x, "stagingPath"), StringAt(x, "dataUrl"));
    hide ImageRecord, WithoutData, Staged, Get, StringAt;
  }

  lemma ImageRecordIs(name: string, mimeType: string, stagingPath: Option<string>, dataUrl: Option<string>)
    ensures var y := ImageRecord(name, mimeType, stagingPath, dataUrl);
            && Get(y, "name") == Some(Str(name)) && Get(y, "mimeType") == Some(Str(mimeType))
            && Get(y, "stagingPath") == (if stagingPath.Some? then Some(Str(stagingPath.value)) else None)
            && Get(y, "dataUrl") == (if dataUrl.Some? then Some(Str(dataUrl.value)) else None)
            && y.Obj? && y.fields.Keys <= {"name", "mimeType", "stagingPath", "dataUrl"}
  {
    ImageRecordReads(name, mimeType, stagingPath, dataUrl);
    ImageRecordFields(name, mimeType, stagingPath, dataUrl);
  }

  lemma ImageRecordFields(name: string, mimeType: string, stagingPath: Option<string>, dataUrl: Option<string>)
    ensures var y := ImageRecord(name, mimeType, stagingPath, dataUrl);
            && y.Obj? && y.fields.Keys <= {"name", "mimeType", "stagingPath", "dataUrl"}
            && (stagingPath.None? ==> "stagingPath" !in y.fields) && (dataUrl.None? ==> "dataUrl" !in y.fields)
  {
  }

  lemma MapAllMore(f: Json -> Json, items: seq<Json>, last: Json)
    ensures MapAll(f, items + [last]) == MapAll(f, items) + [f(last)]
  {
    assert (items + [last])[..|items|] == items;
  }

  lemma FilterMore(p: Json -> bool, items: seq<Json>, last: Json)
    ensures Filter(p, items + [last]) == if p(last) then Filter(p, items) + [last] else Filter(p, items)
  {
    assert (items + [last])[..|items|] == items;
  }

  lemma ImagesAsMore(items: seq<Json>, kept: seq<Json>, x: Json, y: Json, inline: bool)
    requires ImagesAs(items, kept, inline) && ImageAs(x, y, inline)
    ensures ImagesAs(items + [x], kept + [y], inline)
  {
    hide ImageAs;
  }

  function Cleaned(items: seq<Json>): seq<Json> {
    MapAll(CleanImage, Filter(UsableImage, items))
  }

  function StoredOf(cleaned: seq<Json>): seq<Json> {
    MapAll(WithoutData, Filter(Staged, cleaned))
  }

  lemma CleanedMore(items: seq<Json>, last: Json)
    ensures Cleaned(items + [last]) == if Viewable(last) then Cleaned(items) + [CleanImage(last)] else Cleaned(items)
  {
    UsableIsViewable(last);
    FilterMore(UsableImage, items, last);
    hide Viewable, UsableImage, Filter, CleanImage;
    if Viewable(last) { MapAllMore(CleanImage, Filter(UsableImage, items), last); }
  }

  lemma StoredMore(cleaned: seq<Json>, last: Json)
    ensures StoredOf(cleaned + [last]) ==
            if Staged(last) then StoredOf(cleaned) + [WithoutData(last)] else StoredOf(cleaned)
  {
    FilterMore(Staged, cleaned, last);
    hide Staged, WithoutData, Filter;
    if Staged(last) { MapAllMore(WithoutData, Filter(Staged, cleaned), last); }
  }

  lemma {:induction false} ImagesRead(items: seq<Json>)
    ensures ImagesAs(Filter(Viewable, items), Cleaned(items), true)
    ensures ImagesAs(Filter(HasPath, items), StoredOf(Cleaned(items)), false)
  {
    if items != [] {
      var front, last := items[..|items| - 1], items[|items| - 1];
      ImagesRead(front);
      CleanAs(last);
      assert HasPath(last) ==> last.Obj? && Viewable(last);
      hide CleanImage, ImageAs, ImagesAs, Viewable, HasPath, Cleaned, StoredOf, Staged, WithoutData;
      SplitLast(items);
      CleanedMore(front, last);
      FilterMore(Viewable, front, last);
      FilterMore(HasPath, front, last);
      StoredMore(Cleaned(front), CleanImage(last));
      hide Filter;
      if Viewable(last) {
        ImagesAsMore(Filter(Viewable, front), Cleaned(front), last, CleanImage(last), true);
      }
      if HasPath(last) {
        ImagesAsMore(Filter(HasPath, front), StoredOf(Cleaned(front)), last, WithoutData(CleanImage(last)), false);
      }
    } else {
      NoImages();
    }
  }

  lemma NoImages()
    ensures Filter(Viewable, []) == [] && Filter(HasPath, []) == [] && Cleaned([]) == [] && StoredOf([]) == []
  {
  }

  lemma ImagesKind()
    ensures KindOf("images") == Images
  {
  }

  lemma FailureCountsKind()
    ensures KindOf("providerFailureCounts") == FailureCounts
  {
  }

  lemma ImagesField(v: Option<Json>)
    ensures ParseOwn(Images, v) == if v.Some? && v.value.Arr? then Present(Arr(Cleaned(v.value.items))) else Absent
    ensures v.Some? && v.value.Arr? ==>
              SerializeField(Images, Arr(Cleaned(v.value.items))) == Arr(StoredOf(Cleaned(v.value.items)))
  {
    hide MapAll, Filter;
  }

  lemma ImagesStored(v: Json)
    requires ParseDemoRun(v).Ok?
    ensures Get(ParseDemoRun(v).value, "images") == Parsed(ParseOwn(Images, Get(v, "images")))
    ensures Get(NormalForm(v), "images") == Stored(Images, ParseOwn(Images, Get(v, "images")))
    ensures !ParseOwn(Images, Get(v, "images")).Rejected?
  {
    ImagesKind();
    OtherIsDurable("images");
    hide ParseDemoRun, NormalForm, Durable, KindOf, ParseOwn, HasRequired, SerializeField;
    FieldStands(v, "images");
  }

  /** The images that can be shown; stored, those that are staged, without their data. */
  lemma ImagesConserved(v: Json)
    requires ParseDemoRun(v).Ok?
    ensures ImagesKept(v, ParseDemoRun(v).value, false) && ImagesKept(v, NormalForm(v), true)
  {
    hide ParseDemoRun, NormalForm, ImagesAs, Cleaned, StoredOf, Filter, HasPath, Viewable, ParseOwn, SerializeField;
    ImagesStored(v);
    ImagesField(Get(v, "images"));
    match Get(v, "images")
    case Some(Arr(items)) => ImagesRead(items);
    case _ =>
  }
}
