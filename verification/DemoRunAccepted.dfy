/** Which values `parseDemoRun` accepts, the fields it returns and the failure counts among
    them: by the names and limits of demo-run.ts alone. */
module DemoRunAccepted {
  import opened Results
  import opened Json
  import opened Ordering
  import opened DemoRunForm
  import opened DemoRunNormalForm
  import opened DemoRunLaws
  import opened DemoRunLists
  import opened DemoRunTurns

  // ---------------------------------------------------------- failure counts

  /** The names with a count: a whole number above zero. */
  ghost function Counted(fields: map<string, Json>): set<string> {
    set k | k in fields && k != "" && fields[k].Num? && fields[k].n > 0.0 && fields[k].n == fields[k].n.Floor as real
  }

  /** Every count is kept, up to 64 of them; without any the field is left out. */
  ghost predicate CountsAs(fields: map<string, Json>, out: Option<Json>) {
    match out
    case None => Counted(fields) == {}
    case Some(Obj(kept)) =>
      && kept != map[] && kept.Keys <= Counted(fields)
      && |kept.Keys| == (if |Counted(fields)| <= 64 then |Counted(fields)| else 64)
      && forall k :: k in kept ==> kept[k] == fields[k]
    case _ => false
  }

  /** A list stands for the record of its indices. */
  ghost predicate CountsKept(v: Json, out: Json) {
    match Get(v, "providerFailureCounts")
    case Some(Obj(fields)) => CountsAs(fields, Get(out, "providerFailureCounts"))
    case Some(Arr(items)) =>
      (exists fields ::
         && CountsAs(fields, Get(out, "providerFailureCounts"))
         && forall k :: k in fields ==> exists i :: 0 <= i < |items| && k == Decimal(i) && fields[k] == items[i])
    case _ => Get(out, "providerFailureCounts") == None
  }

  lemma {:induction false} FirstKeysSize(s: set<string>, n: nat)
    ensures |FirstKeys(s, n)| == if |s| <= n then |s| else n
    decreases n
  {
    if n > 0 && s != {} {
      var k := Smallest(s);
      FirstKeysSize(s - {k}, n - 1);
      assert k !in FirstKeys(s - {k}, n - 1);
    }
  }

  lemma KeptCountsAre(valid: map<string, Json>)
    ensures var kept := KeptCounts(valid);
            && kept.Keys <= valid.Keys && |kept.Keys| == (if |valid.Keys| <= 64 then |valid.Keys| else 64)
            && (forall k :: k in kept ==> kept[k] == valid[k])
            && (kept == map[] <==> valid.Keys == {})
  {
    FirstKeysSize(valid.Keys, MAX_FAILURE_COUNTS);
    hide FirstKeys;
    var kept := KeptCounts(valid);
    assert kept.Keys == FirstKeys(valid.Keys, MAX_FAILURE_COUNTS);
    assert kept == map[] <==> kept.Keys == {};
  }

  lemma ValidCountsAre(fields: map<string, Json>)
    ensures ValidCounts(fields).Keys == Counted(fields)
    ensures forall k :: k in Counted(fields) ==> k in fields && ValidCounts(fields)[k] == fields[k]
  {
    var valid := ValidCounts(fields);
    forall k ensures k in valid <==> k in Counted(fields) {
    }
  }

  lemma CountsRead(v: Json)
    ensures CountsAs(Entries(v), Parsed(ParseFailureCounts(Some(v))))
  {
    ValidCountsAre(Entries(v));
    KeptCountsAre(ValidCounts(Entries(v)));
    hide Entries, ValidCounts, KeptCounts, Counted;
  }

  lemma {:induction false} IndexedIs(items: seq<Json>)
    ensures forall k :: k in Indexed(items) ==>
              exists i :: 0 <= i < |items| && k == Decimal(i) && Indexed(items)[k] == items[i]
  {
    hide Decimal;
    if items != [] {
      var front := items[..|items| - 1];
      IndexedIs(front);
      forall k | k in Indexed(items)
        ensures exists i :: 0 <= i < |items| && k == Decimal(i) && Indexed(items)[k] == items[i]
      {
        if k == Decimal(|items| - 1) {
          assert Indexed(items)[k] == items[|items| - 1];
        } else {
          assert k in Indexed(front);
          var i :| 0 <= i < |front| && k == Decimal(i) && Indexed(front)[k] == front[i];
          assert Indexed(items)[k] == items[i];
        }
      }
    }
  }

  lemma CountsOfAList(items: seq<Json>, out: Option<Json>)
    requires CountsAs(Indexed(items), out)
    ensures exists fields ::
              && CountsAs(fields, out)
              && forall k :: k in fields ==> exists i :: 0 <= i < |items| && k == Decimal(i) && fields[k] == items[i]
  {
    IndexedIs(items);
    hide CountsAs, Decimal, Indexed;
  }

  lemma NoCounts(v: Json)
    requires !v.Obj? && !v.Arr?
    ensures ParseFailureCounts(Some(v)) == Absent
  {
    assert ValidCounts(map[]) == map[];
    KeptCountsAre(map[]);
    hide KeptCounts, ValidCounts;
  }

  lemma CountsField(v: Json)
    requires ParseDemoRun(v).Ok?
    ensures Get(ParseDemoRun(v).value, "providerFailureCounts")
         == Parsed(ParseOwn(FailureCounts, Get(v, "providerFailureCounts")))
    ensures Get(NormalForm(v), "providerFailureCounts") == Get(ParseDemoRun(v).value, "providerFailureCounts")
    ensures !ParseOwn(FailureCounts, Get(v, "providerFailureCounts")).Rejected?
  {
    FailureCountsKind();
    OtherIsDurable("providerFailureCounts");
    hide ParseDemoRun, NormalForm, Durable, KindOf, ParseOwn;
    OwnStands(v, "providerFailureCounts", FailureCounts);
  }

  lemma CountsParsed(v: Option<Json>)
    ensures ParseOwn(FailureCounts, v) == ParseFailureCounts(v)
    ensures v.None? ==> ParseFailureCounts(v) == Absent
  {
    hide KeptCounts;
  }

  lemma CountsConserved(v: Json)
    requires ParseDemoRun(v).Ok?
    ensures CountsKept(v, ParseDemoRun(v).value) && CountsKept(v, NormalForm(v))
  {
    hide ParseDemoRun, NormalForm, CountsAs, Decimal, Indexed, ParseOwn, ParseFailureCounts;
    CountsField(v);
    CountsParsed(Get(v, "providerFailureCounts"));
    match Get(v, "providerFailureCounts")
    case None =>
    case Some(x) =>
      CountsRead(x);
      if x.Arr? {
        CountsOfAList(x.items, Parsed(ParseFailureCounts(Some(x))));
      } else if !x.Obj? {
        NoCounts(x);
      }
  }

  // -------------------------------------------------------- the whole record

  /** The fields of a run. */
  ghost function RunFields(): set<string> {
    {"runId", "threadId", "userText", "modelId", "providerModelId", "protocol", "baseUrl", "providerId",
     "credentialRefId", "agentVersionId", "resolutionSource", "globalAgentId", "globalAgentName", "persona", "teamId",
     "teamName", "teamPromptBlock", "fallbackModelIds", "attemptedModelIds", "providerFailureCounts", "retryCount",
     "requestedSkillVersionIds", "skillVersionIds", "skillSnapshots", "mcpServerIds", "contextWindow",
     "modelContextWindow", "contextWindowOverride", "projectContextPromptBlocks", "contextSources", "compactSummary",
     "compactedAt", "reasoningEffort", "networkEnabled", "helpMode", "images", "imagesMode", "packetId", "proofHash",
     "nextAdapterEventIndex", "assistantText", "commentaryText", "commentarySegments", "legacyPendingText",
     "reasoningText", "reasoningSegments", "assistantTimeline", "kernelToolEvents", "useFakeProvider"}
  }

  lemma TextNamesAreFields(name: string)
    requires name in REQUIRED_STRINGS || name in OPTIONAL_STRINGS
    ensures name in RunFields()
  {
  }

  lemma GroupNamesAreFields(name: string)
    requires name in TEXTS || name in OPTIONAL_NUMBERS || name in FLAGS || name in SHORT_LISTS || name in LISTS
    ensures name in RunFields()
  {
  }

  lemma OtherNamesAreFields(name: string)
    requires name in OTHERS
    ensures name in RunFields()
  {
  }

  lemma NamesAreFields()
    ensures FieldNames() <= RunFields()
  {
    hide RunFields;
    forall name | name in FieldNames() ensures name in RunFields() {
      if name in REQUIRED_STRINGS || name in OPTIONAL_STRINGS {
        TextNamesAreFields(name);
      } else if name in OTHERS {
        OtherNamesAreFields(name);
      } else {
        GroupNamesAreFields(name);
      }
    }
  }

  /** Neither reading nor storing adds a field of its own. */
  lemma NothingElse(v: Json)
    requires ParseDemoRun(v).Ok?
    ensures forall name :: Get(ParseDemoRun(v).value, name).Some? || Get(NormalForm(v), name).Some? ==>
              name in RunFields()
  {
    NamesAreFields();
    NormalFormFields(v);
    hide FieldNames, RunFields, NormalForm, ParseField, HasRequired;
  }

  /** Storing drops the expanded context of a run; it changes its images and its sources, and no
      other field. */
  lemma StoredFields(run: Json, name: string)
    requires run.Obj?
    ensures name == "skillPromptBlocks" || name == "contextSnapshot" || name == "mcpToolDispatch" ==>
              Get(SerializeDemoRun(run), name) == None
    ensures name != "skillPromptBlocks" && name != "contextSnapshot" && name != "mcpToolDispatch"
            && name != "images" && name != "contextSources" ==>
              Get(SerializeDemoRun(run), name) == Get(run, name)
  {
    ChangedKinds(name);
    hide KindOf;
  }

  lemma ChangedKinds(name: string)
    ensures KindOf(name) == Images ==> name == "images"
    ensures KindOf(name) == ContextSources ==> name == "contextSources"
  {
  }

  // --------------------------------------------------------------- acceptance

  ghost predicate StringsWithin(v: Json, name: string, max: nat) {
    match Get(v, name)
    case None => true
    case Some(Arr(items)) => |items| <= max && forall i :: 0 <= i < |items| ==> items[i].Str?
    case _ => false
  }

  ghost predicate EntriesWithin(v: Json, name: string, max: nat, entry: Json -> bool) {
    match Get(v, name)
    case None => true
    case Some(Arr(items)) => |items| <= max && forall i :: 0 <= i < |items| ==> entry(items[i])
    case _ => false
  }

  predicate SkillLike(x: Json) {
    StringAt(x, "skillVersionId").Some? && StringAt(x, "contentFingerprint").Some?
  }

  predicate SourceLike(x: Json) {
    && StringAt(x, "id").Some? && StringAt(x, "kind").Some? && StringAt(x, "section").Some?
    && (StringAt(x, "disposition") == Some("included") || StringAt(x, "disposition") == Some("audit-only"))
  }

  ghost predicate SegmentsFit(v: Json, name: string) {
    match Get(v, name)
    case None => true
    case Some(Arr(items)) => forall i :: 0 <= i < |items| ==> SegmentLike(items[i])
    case _ => false
  }

  ghost predicate RequiredThere(v: Json) {
    && v.Obj?
    && (forall name :: name in {"runId", "threadId", "userText", "modelId", "assistantText"} ==>
          StringAt(v, name).Some?)
    && NumberAt(v, "nextAdapterEventIndex").Some?
  }

  ghost predicate ListsFit(v: Json) {
    && StringsWithin(v, "requestedSkillVersionIds", 8)
    && StringsWithin(v, "skillVersionIds", 8)
    && StringsWithin(v, "fallbackModelIds", 64)
    && StringsWithin(v, "mcpServerIds", 64)
    && StringsWithin(v, "attemptedModelIds", 256)
    && StringsWithin(v, "projectContextPromptBlocks", 256)
    && EntriesWithin(v, "skillSnapshots", 8, SkillLike)
    && EntriesWithin(v, "contextSources", 256, SourceLike)
    && SegmentsFit(v, "commentarySegments")
    && SegmentsFit(v, "reasoningSegments")
  }

  lemma RequiredIs(v: Json)
    ensures RequiredThere(v) <==> v.Obj? && HasRequired(v.fields)
  {
    if v.Obj? && HasRequired(v.fields) {
      forall name | name in {"runId", "threadId", "userText", "modelId", "assistantText"}
        ensures StringAt(v, name).Some?
      {
        assert name in REQUIRED_STRINGS;
      }
    }
    if RequiredThere(v) {
      forall name | name in REQUIRED_STRINGS ensures name in v.fields && v.fields[name].Str? {
        assert StringAt(v, name).Some?;
      }
    }
  }

  // One list field of each kind: rejected exactly when it does not fit.

  lemma StringsFit(v: Json, name: string, max: nat)
    ensures ParseOwn(StringList(max), Get(v, name)).Rejected? <==> !StringsWithin(v, name, max)
  {
    match Get(v, name)
    case Some(Arr(items)) => AllStrings(items);
    case _ =>
  }

  lemma SegmentsRejected(v: Json, name: string)
    ensures ParseOwn(CommentarySegments, Get(v, name)).Rejected? <==> !SegmentsFit(v, name)
    ensures ParseOwn(ReasoningSegments, Get(v, name)).Rejected? <==> !SegmentsFit(v, name)
  {
    SegmentsField(Get(v, name));
    hide ParseOwn, SegmentLike;
    match Get(v, name)
    case Some(Arr(items)) => DecodedAt(items); hide DecodeSegments;
    case _ =>
  }

  lemma EntriesRejected(v: Json, name: string)
    ensures ParseOwn(SkillSnapshots, Get(v, name)).Rejected? <==> !EntriesWithin(v, name, 8, SkillLike)
    ensures ParseOwn(ContextSources, Get(v, name)).Rejected? <==> !EntriesWithin(v, name, 256, SourceLike)
  {
    match Get(v, name)
    case Some(Arr(items)) =>
      SkillsFit(items);
      SourcesFit(items);
      hide ParseAll, SkillLike, SourceLike, ParseSkillSnapshot, ParseContextSource;
    case _ =>
  }

  lemma SkillsFit(items: seq<Json>)
    ensures ParseAll(ParseSkillSnapshot, items).Some? <==> forall i :: 0 <= i < |items| ==> SkillLike(items[i])
  {
    ParseAllAt(ParseSkillSnapshot, items);
    forall x ensures ParseSkillSnapshot(x).Some? <==> SkillLike(x) {
    }
    hide ParseAll, ParseSkillSnapshot, SkillLike;
  }

  lemma SourcesFit(items: seq<Json>)
    ensures ParseAll(ParseContextSource, items).Some? <==> forall i :: 0 <= i < |items| ==> SourceLike(items[i])
  {
    ParseAllAt(ParseContextSource, items);
    forall x ensures ParseContextSource(x).Some? <==> SourceLike(x) {
    }
    hide ParseAll, ParseContextSource, SourceLike;
  }

  lemma AttemptsRejected(v: Json)
    requires v.Obj? && HasRequired(v.fields)
    ensures Attempts(v.fields).None? <==> !StringsWithin(v, "attemptedModelIds", 256)
  {
    hide HasRequired, Unique, Strings;
  }

  // Which names have the kinds that can be refused.

  lemma RefusableStrings(name: string)
    ensures match KindOf(name)
            case StringList(max) =>
              || (max == 8 && (name == "requestedSkillVersionIds" || name == "skillVersionIds"))
              || (max == 64 && (name == "fallbackModelIds" || name == "mcpServerIds"))
              || (max == 256 && name == "projectContextPromptBlocks")
            case _ => true
  {
  }

  lemma RefusableRequired(name: string)
    ensures KindOf(name) == RequiredString ==> name in REQUIRED_STRINGS
    ensures KindOf(name) == RequiredNumber ==> name == "nextAdapterEventIndex"
    ensures KindOf(name) == AttemptedModels ==> name == "attemptedModelIds"
  {
  }

  lemma RefusableEntries(name: string)
    ensures KindOf(name) == SkillSnapshots ==> name == "skillSnapshots"
    ensures KindOf(name) == ContextSources ==> name == "contextSources"
  {
  }

  lemma RefusableSegments(name: string)
    ensures KindOf(name) == CommentarySegments ==> name == "commentarySegments"
    ensures KindOf(name) == ReasoningSegments ==> name == "reasoningSegments"
  {
  }

  predicate CanReject(kind: Kind) {
    kind.RequiredString? || kind.RequiredNumber? || kind.StringList? || kind.SkillSnapshots? || kind.ContextSources?
    || kind.CommentarySegments? || kind.ReasoningSegments?
  }

  lemma NeverRejected(kind: Kind, v: Option<Json>)
    requires !CanReject(kind)
    ensures !ParseOwn(kind, v).Rejected?
  {
    FailureCountsReread(v);
    hide ParseFailureCounts, BoundTurns, Filter, MapAll;
  }

  lemma RequiredNotRejected(v: Json, name: string)
    requires v.Obj? && HasRequired(v.fields)
    ensures name in REQUIRED_STRINGS ==> !ParseOwn(RequiredString, Get(v, name)).Rejected?
    ensures name == "nextAdapterEventIndex" ==> !ParseOwn(RequiredNumber, Get(v, name)).Rejected?
  {
  }

  lemma RejectedOwn(v: Json, name: string, kind: Kind)
    requires v.Obj? && HasRequired(v.fields) && KindOf(name) == kind && ParseOwn(kind, Get(v, name)).Rejected?
    ensures !ListsFit(v)
  {
    RefusableStrings(name);
    RefusableRequired(name);
    RefusableEntries(name);
    RefusableSegments(name);
    RequiredNotRejected(v, name);
    hide KindOf, StringsWithin, EntriesWithin, SegmentsFit, ParseOwn, HasRequired;
    if !CanReject(kind) {
      NeverRejected(kind, Get(v, name));
    } else {
      match kind
      case StringList(max) => StringsFit(v, name, max);
      case SkillSnapshots => EntriesRejected(v, name);
      case ContextSources => EntriesRejected(v, name);
      case CommentarySegments => SegmentsRejected(v, name);
      case ReasoningSegments => SegmentsRejected(v, name);
      case _ =>
    }
  }

  lemma RejectedField(v: Json, name: string)
    requires v.Obj? && HasRequired(v.fields) && ParseField(name, v.fields).Rejected?
    ensures !ListsFit(v)
  {
    hide KindOf, Attempts, ParseOwn, HasRequired;
    match KindOf(name)
    case AttemptedModels =>
      AttemptsRejected(v);
      hide StringsWithin, EntriesWithin, SegmentsFit;
    case ProviderModelId =>
    case FakeProvider =>
    case kind =>
      hide ListsFit;
      RejectedOwn(v, name, kind);
  }

  lemma StringListsFit(v: Json)
    requires ParseDemoRun(v).Ok?
    ensures StringsWithin(v, "requestedSkillVersionIds", 8) && StringsWithin(v, "skillVersionIds", 8)
    ensures StringsWithin(v, "fallbackModelIds", 64) && StringsWithin(v, "mcpServerIds", 64)
    ensures StringsWithin(v, "attemptedModelIds", 256) && StringsWithin(v, "projectContextPromptBlocks", 256)
  {
    hide ParseDemoRun, NormalForm, ListKept, StringsWithin, AttemptsKept;
    ListsConserved(v);
    AttemptsConserved(v);
    var out := NormalForm(v);
    KeptFits(v, out, "requestedSkillVersionIds", 8);
    KeptFits(v, out, "skillVersionIds", 8);
    KeptFits(v, out, "fallbackModelIds", 64);
    KeptFits(v, out, "mcpServerIds", 64);
    KeptFits(v, out, "projectContextPromptBlocks", 256);
    assert StringsWithin(v, "attemptedModelIds", 256) by { AttemptsFitToo(v, out); }
  }

  lemma KeptFits(v: Json, out: Json, name: string, max: nat)
    requires ListKept(v, out, name, max)
    ensures StringsWithin(v, name, max)
  {
  }

  lemma AttemptsFitToo(v: Json, out: Json)
    requires AttemptsKept(v, out)
    ensures StringsWithin(v, "attemptedModelIds", 256)
  {
    hide OnceEach, WithModel;
  }

  lemma EntriesFit(v: Json)
    requires ParseDemoRun(v).Ok?
    ensures EntriesWithin(v, "skillSnapshots", 8, SkillLike) && EntriesWithin(v, "contextSources", 256, SourceLike)
  {
    hide ParseDemoRun, NormalForm, ParseOwn, EntriesWithin;
    EntriesRejected(v, "skillSnapshots");
    EntriesRejected(v, "contextSources");
    SkillsField(v);
    SourcesStored(v);
  }

  lemma SegmentListsFit(v: Json)
    requires ParseDemoRun(v).Ok?
    ensures SegmentsFit(v, "commentarySegments") && SegmentsFit(v, "reasoningSegments")
  {
    hide ParseDemoRun, NormalForm, ParseOwn, SegmentsFit;
    SegmentsRejected(v, "commentarySegments");
    SegmentsRejected(v, "reasoningSegments");
    CommentaryField(v);
    ReasoningField(v);
  }

  lemma AcceptedListsFit(v: Json)
    requires ParseDemoRun(v).Ok?
    ensures ListsFit(v)
  {
    StringListsFit(v);
    EntriesFit(v);
    SegmentListsFit(v);
    hide ParseDemoRun, StringsWithin, EntriesWithin, SegmentsFit;
  }

  /** A value is a run exactly when it is a record with the required fields, whose lists stay
      within their limits and hold what they should. */
  lemma AcceptedExactly(v: Json)
    ensures ParseDemoRun(v).Ok? <==> RequiredThere(v) && ListsFit(v)
  {
    RequiredIs(v);
    hide RequiredThere, ListsFit, HasRequired, ParseField, FieldNames, Durable;
    if ParseDemoRun(v).Ok? {
      AcceptedListsFit(v);
    } else if v.Obj? && HasRequired(v.fields) {
      var name :| name in FieldNames() && Durable(name) && ParseField(name, v.fields).Rejected?;
      RejectedField(v, name);
    }
  }
}
