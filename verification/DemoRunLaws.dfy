/** What reading a run keeps of it, field by field: `parseDemoRun` and the normal form that
    is stored, by the names and limits of demo-run.ts alone. */
module DemoRunLaws {
  import opened Results
  import opened Json
  import opened Ordering
  import opened DemoRunForm
  import opened DemoRunNormalForm

  // ------------------------------------------------------------ one field

  function Parsed(f: Field): Option<Json> {
    if f.Present? then Some(f.value) else None
  }

  function Stored(kind: Kind, f: Field): Option<Json> {
    if f.Present? then Some(SerializeField(kind, f.value)) else None
  }

  /** The field as parsed, and as stored. */
  lemma FieldStands(v: Json, name: string)
    requires ParseDemoRun(v).Ok? && Durable(name)
    ensures v.Obj? && HasRequired(v.fields)
    ensures Get(ParseDemoRun(v).value, name) == Parsed(ParseField(name, v.fields))
    ensures Get(NormalForm(v), name) == Stored(KindOf(name), ParseField(name, v.fields))
    ensures !ParseField(name, v.fields).Rejected?
  {
    NormalFormFields(v);
    assert StoredAs(name, v.fields, NormalForm(v).fields);
    hide ParseField, KindOf, SerializeField, FieldNames, HasRequired, NormalForm;
  }

  /** A field that is read on its own, and that storing leaves as it was parsed. */
  lemma OwnStands(v: Json, name: string, kind: Kind)
    requires ParseDemoRun(v).Ok? && Durable(name) && KindOf(name) == kind
    requires !kind.ProviderModelId? && !kind.AttemptedModels? && !kind.FakeProvider?
    requires !kind.Images? && !kind.ContextSources?
    ensures Get(ParseDemoRun(v).value, name) == Parsed(ParseOwn(kind, Get(v, name)))
    ensures Get(NormalForm(v), name) == Get(ParseDemoRun(v).value, name)
    ensures !ParseOwn(kind, Get(v, name)).Rejected?
  {
    hide ParseDemoRun, NormalForm, Durable, HasRequired, ParseOwn;
    FieldStands(v, name);
  }

  // Each group of names on its own: none of them is dropped by storing.

  lemma OptionalTextIsDurable(name: string)
    requires name in OPTIONAL_STRINGS
    ensures Durable(name)
  {
    assert !Transient(name) by { OptionalTextIsStored(name); }
    hide Transient;
  }

  lemma OptionalTextIsStored(name: string)
    requires name in OPTIONAL_STRINGS
    ensures !Transient(name)
  {
  }

  lemma OtherIsDurable(name: string)
    requires name in OTHERS
    ensures Durable(name)
  {
    assert !Transient(name) by { OtherIsStored(name); }
    hide Transient;
  }

  lemma OtherIsStored(name: string)
    requires name in OTHERS
    ensures !Transient(name)
  {
  }

  lemma SmallGroupIsDurable(name: string)
    requires name in TEXTS + OPTIONAL_NUMBERS + FLAGS + SHORT_LISTS + LISTS
    ensures Durable(name)
  {
    assert !Transient(name) by { SmallGroupIsStored(name); }
    hide Transient;
  }

  lemma SmallGroupIsStored(name: string)
    requires name in TEXTS + OPTIONAL_NUMBERS + FLAGS + SHORT_LISTS + LISTS
    ensures !Transient(name)
  {
  }

  // ------------------------------------------------------------ text fields

  /** The five strings that a run cannot do without, and its position in the adapter. */
  ghost predicate RequiredKept(v: Json, out: Json) {
    && (forall name :: name in {"runId", "threadId", "userText", "modelId", "assistantText"} ==>
          StringAt(v, name).Some? && StringAt(out, name) == StringAt(v, name))
    && NumberAt(v, "nextAdapterEventIndex").Some?
    && NumberAt(out, "nextAdapterEventIndex") == NumberAt(v, "nextAdapterEventIndex")
  }

  /** A string is kept, and anything else is left out. */
  ghost predicate OptionalTextKept(v: Json, out: Json, name: string) {
    Get(out, name) == match StringAt(v, name) case Some(s) => Some(Str(s)) case None => None
  }

  /** A string is kept, and anything else becomes the fallback. */
  ghost predicate TextKept(v: Json, out: Json, name: string, fallback: string) {
    Get(out, name) == Some(Str(match StringAt(v, name) case Some(s) => s case None => fallback))
  }

  /** Whatever is there is kept, and nothing or null becomes the fallback. */
  ghost predicate ValueKept(v: Json, out: Json, name: string, fallback: string) {
    Get(out, name) == (match Get(v, name)
                       case None => Some(Str(fallback))
                       case Some(x) => if x == Null then Some(Str(fallback)) else Some(x))
  }

  /** The strings that a run may have. */
  function OptionalTexts(): set<string> {
    {"providerId", "credentialRefId", "globalAgentId", "globalAgentName", "persona", "teamId", "teamName",
     "teamPromptBlock", "compactSummary", "compactedAt", "reasoningEffort", "packetId", "proofHash"}
  }

  ghost predicate TextsKept(v: Json, out: Json) {
    && (forall name :: name in OptionalTexts() ==> OptionalTextKept(v, out, name))
    && TextKept(v, out, "baseUrl", "https://fake.invalid/v1")
    && TextKept(v, out, "agentVersionId", "agent-default-conversation")
    && TextKept(v, out, "commentaryText", "")
    && TextKept(v, out, "legacyPendingText", "")
    && TextKept(v, out, "reasoningText", "")
    && ValueKept(v, out, "protocol", "openai-chat")
    && ValueKept(v, out, "resolutionSource", "agentDefault")
  }

  lemma OptionalTextKind(name: string)
    requires name in OPTIONAL_STRINGS
    ensures KindOf(name) == OptionalString
  {
  }

  lemma TextKind(name: string)
    requires name in TEXTS
    ensures KindOf(name) == StringOr("")
  {
  }

  lemma AddressKinds()
    ensures KindOf("baseUrl") == StringOr("https://fake.invalid/v1")
    ensures KindOf("agentVersionId") == StringOr("agent-default-conversation")
  {
  }

  lemma ValueKinds()
    ensures KindOf("protocol") == NonNullOr("openai-chat")
    ensures KindOf("resolutionSource") == NonNullOr("agentDefault")
  {
  }

  lemma RequiredConserved(v: Json)
    requires ParseDemoRun(v).Ok?
    ensures RequiredKept(v, ParseDemoRun(v).value) && RequiredKept(v, NormalForm(v))
  {
    RequiredKinds();
    hide ParseDemoRun, NormalForm, Durable, KindOf;
    forall name | name in {"runId", "threadId", "userText", "modelId", "assistantText"}
      ensures StringAt(v, name).Some? && StringAt(ParseDemoRun(v).value, name) == StringAt(v, name)
      ensures StringAt(NormalForm(v), name) == StringAt(v, name)
    {
      OwnStands(v, name, RequiredString);
    }
    OwnStands(v, "nextAdapterEventIndex", RequiredNumber);
  }

  lemma TextConserved(v: Json, name: string, fallback: string)
    requires ParseDemoRun(v).Ok? && Durable(name) && KindOf(name) == StringOr(fallback)
    ensures TextKept(v, ParseDemoRun(v).value, name, fallback) && TextKept(v, NormalForm(v), name, fallback)
  {
    hide ParseDemoRun, NormalForm, Durable, KindOf;
    OwnStands(v, name, StringOr(fallback));
  }

  lemma ValueConserved(v: Json, name: string, fallback: string)
    requires ParseDemoRun(v).Ok? && Durable(name) && KindOf(name) == NonNullOr(fallback)
    ensures ValueKept(v, ParseDemoRun(v).value, name, fallback) && ValueKept(v, NormalForm(v), name, fallback)
  {
    hide ParseDemoRun, NormalForm, Durable, KindOf;
    OwnStands(v, name, NonNullOr(fallback));
  }

  lemma OptionalTextConserved(v: Json, name: string)
    requires ParseDemoRun(v).Ok? && Durable(name) && KindOf(name) == OptionalString
    ensures OptionalTextKept(v, ParseDemoRun(v).value, name) && OptionalTextKept(v, NormalForm(v), name)
  {
    hide ParseDemoRun, NormalForm, Durable, KindOf;
    OwnStands(v, name, OptionalString);
  }

  lemma DefaultedTextsConserved(v: Json)
    requires ParseDemoRun(v).Ok?
    ensures forall name :: name in {"commentaryText", "legacyPendingText", "reasoningText"} ==>
              TextKept(v, ParseDemoRun(v).value, name, "") && TextKept(v, NormalForm(v), name, "")
    ensures TextKept(v, ParseDemoRun(v).value, "baseUrl", "https://fake.invalid/v1")
    ensures TextKept(v, NormalForm(v), "baseUrl", "https://fake.invalid/v1")
    ensures TextKept(v, ParseDemoRun(v).value, "agentVersionId", "agent-default-conversation")
    ensures TextKept(v, NormalForm(v), "agentVersionId", "agent-default-conversation")
    ensures ValueKept(v, ParseDemoRun(v).value, "protocol", "openai-chat")
    ensures ValueKept(v, NormalForm(v), "protocol", "openai-chat")
    ensures ValueKept(v, ParseDemoRun(v).value, "resolutionSource", "agentDefault")
    ensures ValueKept(v, NormalForm(v), "resolutionSource", "agentDefault")
  {
    hide ParseDemoRun, NormalForm, Durable, KindOf, TextKept, ValueKept, NumberKept, FlagKept, ListKept;
    forall name | name in {"commentaryText", "legacyPendingText", "reasoningText"}
      ensures TextKept(v, ParseDemoRun(v).value, name, "") && TextKept(v, NormalForm(v), name, "")
    {
      TextKind(name);
      SmallGroupIsDurable(name);
      TextConserved(v, name, "");
    }
    AddressKinds();
    ValueKinds();
    OtherIsDurable("baseUrl");
    OtherIsDurable("agentVersionId");
    OtherIsDurable("protocol");
    OtherIsDurable("resolutionSource");
    TextConserved(v, "baseUrl", "https://fake.invalid/v1");
    TextConserved(v, "agentVersionId", "agent-default-conversation");
    ValueConserved(v, "protocol", "openai-chat");
    ValueConserved(v, "resolutionSource", "agentDefault");
  }

  /** Every text of a run is the same text when it is read, and in what is stored of it. */
  lemma TextsConserved(v: Json)
    requires ParseDemoRun(v).Ok?
    ensures TextsKept(v, ParseDemoRun(v).value) && TextsKept(v, NormalForm(v))
  {
    hide ParseDemoRun, NormalForm, Durable, KindOf, TextKept, ValueKept, OptionalTextKept;
    DefaultedTextsConserved(v);
    forall name | name in OptionalTexts()
      ensures OptionalTextKept(v, ParseDemoRun(v).value, name) && OptionalTextKept(v, NormalForm(v), name)
    {
      assert name in OPTIONAL_STRINGS;
      OptionalTextKind(name);
      OptionalTextIsDurable(name);
      OptionalTextConserved(v, name);
    }
  }

  // ------------------------------------------------- numbers, flags and lists

  ghost predicate NumberKept(v: Json, out: Json, name: string) {
    Get(out, name) == match NumberAt(v, name) case Some(n) => Some(Num(n)) case None => None
  }

  ghost predicate FlagKept(v: Json, out: Json, name: string) {
    Get(out, name) == if Get(v, name) == Some(Bool(true)) then Some(Bool(true)) else None
  }

  /** The list is one of at most `max` strings and the same list, or missing in both. */
  ghost predicate ListKept(v: Json, out: Json, name: string, max: nat) {
    && Get(out, name) == Get(v, name)
    && (match Get(v, name)
        case None => true
        case Some(Arr(items)) => |items| <= max && forall i :: 0 <= i < |items| ==> items[i].Str?
        case _ => false)
  }

  /** A whole number from 0 to 5, or nothing. */
  ghost predicate RetryKept(v: Json, out: Json) {
    Get(out, "retryCount") ==
    match NumberAt(v, "retryCount")
    case Some(n) => if n in {0.0, 1.0, 2.0, 3.0, 4.0, 5.0} then Some(Num(n)) else None
    case None => None
  }

  ghost predicate ImagesModeKept(v: Json, out: Json) {
    Get(out, "imagesMode") ==
    match StringAt(v, "imagesMode")
    case Some(s) =>
      if s == "forwarded" || s == "materialized" || s == "described" || s == "ocr" || s == "failed"
      then Some(Str(s)) else None
    case None => None
  }

  ghost predicate NumbersAndListsKept(v: Json, out: Json) {
    && NumberKept(v, out, "contextWindow")
    && NumberKept(v, out, "modelContextWindow")
    && NumberKept(v, out, "contextWindowOverride")
    && FlagKept(v, out, "networkEnabled")
    && FlagKept(v, out, "helpMode")
    && ListKept(v, out, "requestedSkillVersionIds", 8)
    && ListKept(v, out, "skillVersionIds", 8)
    && ListKept(v, out, "fallbackModelIds", 64)
    && ListKept(v, out, "mcpServerIds", 64)
    && ListKept(v, out, "projectContextPromptBlocks", 256)
    && RetryKept(v, out)
    && ImagesModeKept(v, out)
  }

  lemma NumberKind(name: string)
    requires name in OPTIONAL_NUMBERS
    ensures KindOf(name) == OptionalNumber
  {
  }

  lemma FlagKind(name: string)
    requires name in FLAGS
    ensures KindOf(name) == TrueOnly
  {
  }

  lemma RetryKinds()
    ensures KindOf("retryCount") == RetryCount
    ensures KindOf("imagesMode") == ImagesMode
  {
  }

  lemma ShortListKind(name: string)
    requires name in SHORT_LISTS
    ensures KindOf(name) == StringList(8)
  {
  }

  lemma LongListKind(name: string)
    requires name in LISTS
    ensures KindOf(name) == StringList(64)
  {
  }

  lemma PromptBlocksKind()
    ensures KindOf("projectContextPromptBlocks") == StringList(256)
  {
  }

  lemma {:induction false} AllStrings(items: seq<Json>)
    ensures ParseAll(ParseString, items).Some? <==> forall i :: 0 <= i < |items| ==> items[i].Str?
    ensures ParseAll(ParseString, items).Some? ==> ParseAll(ParseString, items).value == items
  {
    if items != [] {
      var front := items[..|items| - 1];
      AllStrings(front);
      SplitLast(items);
    }
  }

  lemma ListConserved(v: Json, name: string, max: nat)
    requires ParseDemoRun(v).Ok? && Durable(name) && KindOf(name) == StringList(max)
    ensures ListKept(v, ParseDemoRun(v).value, name, max) && ListKept(v, NormalForm(v), name, max)
  {
    hide ParseDemoRun, NormalForm, Durable, KindOf;
    OwnStands(v, name, StringList(max));
    match Get(v, name)
    case Some(Arr(items)) => AllStrings(items);
    case _ =>
  }

  lemma NumberConserved(v: Json, name: string)
    requires ParseDemoRun(v).Ok? && Durable(name) && KindOf(name) == OptionalNumber
    ensures NumberKept(v, ParseDemoRun(v).value, name) && NumberKept(v, NormalForm(v), name)
  {
    hide ParseDemoRun, NormalForm, Durable, KindOf;
    OwnStands(v, name, OptionalNumber);
  }

  lemma FlagConserved(v: Json, name: string)
    requires ParseDemoRun(v).Ok? && Durable(name) && KindOf(name) == TrueOnly
    ensures FlagKept(v, ParseDemoRun(v).value, name) && FlagKept(v, NormalForm(v), name)
  {
    hide ParseDemoRun, NormalForm, Durable, KindOf;
    OwnStands(v, name, TrueOnly);
  }

  lemma SmallWhole(n: real)
    ensures IntegerValue(n) && 0.0 <= n <= MODEL_RETRY_MAX as real <==> n in {0.0, 1.0, 2.0, 3.0, 4.0, 5.0}
  {
    if IntegerValue(n) && 0.0 <= n <= MODEL_RETRY_MAX as real {
      assert 0 <= n.Floor <= 5;
    }
  }

  lemma RetryConserved(v: Json)
    requires ParseDemoRun(v).Ok?
    ensures RetryKept(v, ParseDemoRun(v).value) && RetryKept(v, NormalForm(v))
  {
    hide ParseDemoRun, NormalForm, Durable, KindOf;
    RetryKinds();
    OtherIsDurable("retryCount");
    OwnStands(v, "retryCount", RetryCount);
    match Get(v, "retryCount")
    case Some(Num(n)) => SmallWhole(n);
    case _ =>
  }

  lemma ImagesModeConserved(v: Json)
    requires ParseDemoRun(v).Ok?
    ensures ImagesModeKept(v, ParseDemoRun(v).value) && ImagesModeKept(v, NormalForm(v))
  {
    hide ParseDemoRun, NormalForm, Durable, KindOf;
    RetryKinds();
    OtherIsDurable("imagesMode");
    OwnStands(v, "imagesMode", ImagesMode);
  }

  lemma NumbersConserved(v: Json)
    requires ParseDemoRun(v).Ok?
    ensures forall name :: name in {"contextWindow", "modelContextWindow", "contextWindowOverride"} ==>
              NumberKept(v, ParseDemoRun(v).value, name) && NumberKept(v, NormalForm(v), name)
    ensures forall name :: name in {"networkEnabled", "helpMode"} ==>
              FlagKept(v, ParseDemoRun(v).value, name) && FlagKept(v, NormalForm(v), name)
  {
    hide ParseDemoRun, NormalForm, Durable, KindOf, TextKept, ValueKept, NumberKept, FlagKept, ListKept;
    forall name | name in {"contextWindow", "modelContextWindow", "contextWindowOverride"}
      ensures NumberKept(v, ParseDemoRun(v).value, name) && NumberKept(v, NormalForm(v), name)
    {
      NumberKind(name);
      SmallGroupIsDurable(name);
      NumberConserved(v, name);
    }
    forall name | name in {"networkEnabled", "helpMode"}
      ensures FlagKept(v, ParseDemoRun(v).value, name) && FlagKept(v, NormalForm(v), name)
    {
      FlagKind(name);
      SmallGroupIsDurable(name);
      FlagConserved(v, name);
    }
  }

  lemma ListsConserved(v: Json)
    requires ParseDemoRun(v).Ok?
    ensures forall name :: name in {"requestedSkillVersionIds", "skillVersionIds"} ==>
              ListKept(v, ParseDemoRun(v).value, name, 8) && ListKept(v, NormalForm(v), name, 8)
    ensures forall name :: name in {"fallbackModelIds", "mcpServerIds"} ==>
              ListKept(v, ParseDemoRun(v).value, name, 64) && ListKept(v, NormalForm(v), name, 64)
    ensures ListKept(v, ParseDemoRun(v).value, "projectContextPromptBlocks", 256)
    ensures ListKept(v, NormalForm(v), "projectContextPromptBlocks", 256)
  {
    hide ParseDemoRun, NormalForm, Durable, KindOf, TextKept, ValueKept, NumberKept, FlagKept, ListKept;
    forall name | name in {"requestedSkillVersionIds", "skillVersionIds"}
      ensures ListKept(v, ParseDemoRun(v).value, name, 8) && ListKept(v, NormalForm(v), name, 8)
    {
      ShortListKind(name);
      SmallGroupIsDurable(name);
      ListConserved(v, name, 8);
    }
    forall name | name in {"fallbackModelIds", "mcpServerIds"}
      ensures ListKept(v, ParseDemoRun(v).value, name, 64) && ListKept(v, NormalForm(v), name, 64)
    {
      LongListKind(name);
      SmallGroupIsDurable(name);
      ListConserved(v, name, 64);
    }
    PromptBlocksKind();
    OtherIsDurable("projectContextPromptBlocks");
    ListConserved(v, "projectContextPromptBlocks", 256);
  }

  /** Numbers, flags and lists of strings within their limits are kept as they are. */
  lemma NumbersAndListsConserved(v: Json)
    requires ParseDemoRun(v).Ok?
    ensures NumbersAndListsKept(v, ParseDemoRun(v).value) && NumbersAndListsKept(v, NormalForm(v))
  {
    hide ParseDemoRun, NormalForm, Durable, KindOf, NumberKept, FlagKept, ListKept, RetryKept, ImagesModeKept;
    NumbersConserved(v);
    ListsConserved(v);
    RetryConserved(v);
    ImagesModeConserved(v);
  }
}
