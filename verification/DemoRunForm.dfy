/** `parseDemoRun` and `serializeDemoRun` of demo-run.ts. A run is the JSON record
    that holds its defined fields: a field that is `undefined` is absent. */
module DemoRunForm {
  import opened Results
  import opened Json
  import opened Ordering
  import TimelineBound
  import Notes = CommentaryTimeline

  datatype RunError = InvalidRun

  /** How one field is read back. */
  datatype Kind =
    | RequiredString
    | RequiredNumber
    | OptionalString
    | StringOr(fallback: string)
    | NonNullOr(fallback: string)
    | OptionalNumber
    | TrueOnly
    | StringList(max: nat)
    | ImagesMode
    | RetryCount
    | FailureCounts
    | SkillSnapshots
    | ContextSources
    | Images
    | CommentarySegments
    | ReasoningSegments
    | Timeline
    | ToolEvents
    | ProviderModelId
    | AttemptedModels
    | FakeProvider

  const REQUIRED_STRINGS := {"runId", "threadId", "userText", "modelId", "assistantText"}

  const OPTIONAL_STRINGS := {
    "providerId", "credentialRefId", "globalAgentId", "globalAgentName", "persona", "teamId", "teamName",
    "teamPromptBlock", "compactSummary", "compactedAt", "reasoningEffort", "packetId", "proofHash"}

  const TEXTS := {"commentaryText", "legacyPendingText", "reasoningText"}

  const OPTIONAL_NUMBERS := {"contextWindow", "modelContextWindow", "contextWindowOverride"}

  const FLAGS := {"networkEnabled", "helpMode"}

  const SHORT_LISTS := {"requestedSkillVersionIds", "skillVersionIds"}

  const LISTS := {"fallbackModelIds", "mcpServerIds"}

  const OTHERS := {
    "nextAdapterEventIndex", "baseUrl", "agentVersionId", "protocol", "resolutionSource",
    "projectContextPromptBlocks", "imagesMode", "retryCount", "providerFailureCounts", "skillSnapshots",
    "contextSources", "images", "commentarySegments", "reasoningSegments", "assistantTimeline",
    "kernelToolEvents", "providerModelId", "attemptedModelIds", "useFakeProvider"}

  function FieldNames(): set<string> {
    REQUIRED_STRINGS + OPTIONAL_STRINGS + TEXTS + OPTIONAL_NUMBERS + FLAGS + SHORT_LISTS + LISTS + OTHERS
  }

  /** Fields that `serializeDemoRun` drops. */
  predicate Transient(name: string) {
    name == "skillPromptBlocks" || name == "contextSnapshot" || name == "mcpToolDispatch"
  }

  /** Every field that `parseDemoRun` returns. */
  predicate Durable(name: string) {
    name in FieldNames() && !Transient(name)
  }

  function KindOf(name: string): Kind {
    if name in REQUIRED_STRINGS then RequiredString
    else if name in OPTIONAL_STRINGS then OptionalString
    else if name == "attemptedModelIds" then AttemptedModels
    else if name == "providerModelId" then ProviderModelId
    else if name == "useFakeProvider" then FakeProvider
    else if name == "nextAdapterEventIndex" then RequiredNumber
    else if name in TEXTS then StringOr("")
    else if name in OPTIONAL_NUMBERS then OptionalNumber
    else if name in FLAGS then TrueOnly
    else if name in SHORT_LISTS then StringList(8)
    else if name in LISTS then StringList(64)
    else if name == "baseUrl" then StringOr("https://fake.invalid/v1")
    else if name == "agentVersionId" then StringOr("agent-default-conversation")
    else if name == "protocol" then NonNullOr("openai-chat")
    else if name == "resolutionSource" then NonNullOr("agentDefault")
    else if name == "projectContextPromptBlocks" then StringList(256)
    else if name == "imagesMode" then ImagesMode
    else if name == "retryCount" then RetryCount
    else if name == "providerFailureCounts" then FailureCounts
    else if name == "skillSnapshots" then SkillSnapshots
    else if name == "contextSources" then ContextSources
    else if name == "images" then Images
    else if name == "commentarySegments" then CommentarySegments
    else if name == "reasoningSegments" then ReasoningSegments
    else if name == "assistantTimeline" then Timeline
    else ToolEvents
  }

  // ------------------------------------------------------------ reading fields

  /** A field after parsing: left undefined, given a value, or a thrown error. */
  datatype Field = Absent | Present(value: Json) | Rejected

  function Get(v: Json, key: string): Option<Json> {
    if v.Obj? && key in v.fields then Some(v.fields[key]) else None
  }

  function StringAt(v: Json, key: string): Option<string> {
    match Get(v, key)
    case Some(Str(s)) => Some(s)
    case _ => None
  }

  function NumberAt(v: Json, key: string): Option<real> {
    match Get(v, key)
    case Some(Num(n)) => Some(n)
    case _ => None
  }

  /** `...(typeof value.key === 'string' ? { key } : {})` */
  function OptionalEntry(key: string, s: Option<string>): map<string, Json> {
    if s.Some? then map[key := Str(s.value)] else map[]
  }

  /** Parses every entry, or rejects the list. */
  function ParseAll(parse: Json -> Option<Json>, items: seq<Json>): Option<seq<Json>> {
    if items == [] then Some([])
    else
      match ParseAll(parse, items[..|items| - 1])
      case None => None
      case Some(front) =>
        match parse(items[|items| - 1])
        case None => None
        case Some(last) => Some(front + [last])
  }

  function ParseList(parse: Json -> Option<Json>, max: nat, v: Option<Json>): Field {
    match v
    case None => Absent
    case Some(Arr(items)) =>
      if |items| > max then Rejected
      else (match ParseAll(parse, items) case None => Rejected case Some(list) => Present(Arr(list)))
    case _ => Rejected
  }

  function ParseString(v: Json): Option<Json> {
    if v.Str? then Some(v) else None
  }

  function ParseSkillSnapshot(v: Json): Option<Json> {
    match (StringAt(v, "skillVersionId"), StringAt(v, "contentFingerprint"))
    case (Some(id), Some(fingerprint)) =>
      Some(Obj(map["skillVersionId" := Str(id), "contentFingerprint" := Str(fingerprint)]))
    case _ => None
  }

  function ParseContextSource(v: Json): Option<Json> {
    match (StringAt(v, "id"), StringAt(v, "kind"), StringAt(v, "section"), StringAt(v, "disposition"))
    case (Some(id), Some(kind), Some(section), Some(disposition)) =>
      if disposition != "included" && disposition != "audit-only" then None
      else
        Some(SourceRecord(id, kind, section, disposition,
                          if kind == "skill-definition" then None else StringAt(v, "content"),
                          StringAt(v, "toolName"), NumberAt(v, "tokens")))
    case _ => None
  }

  function SourceRecord(id: string, kind: string, section: string, disposition: string,
                        content: Option<string>, toolName: Option<string>, tokens: Option<real>): Json {
    Obj(map["id" := Str(id), "kind" := Str(kind), "section" := Str(section), "disposition" := Str(disposition)]
        + OptionalEntry("content", content) + OptionalEntry("toolName", toolName)
        + (if tokens.Some? then map["tokens" := Num(tokens.value)] else map[]))
  }

  predicate StartsWith(s: string, prefix: string) {
    prefix <= s
  }

  predicate UsableImage(v: Json) {
    v.Obj? &&
    ((StringAt(v, "stagingPath").Some? && StringAt(v, "stagingPath").value != "")
     || (StringAt(v, "dataUrl").Some? && StartsWith(StringAt(v, "dataUrl").value, "data:image/")))
  }

  function CleanImage(v: Json): Json {
    ImageRecord(StringAt(v, "name").GetOr("image"), StringAt(v, "mimeType").GetOr("image/png"),
                StringAt(v, "stagingPath"), StringAt(v, "dataUrl"))
  }

  function ImageRecord(name: string, mimeType: string, stagingPath: Option<string>, dataUrl: Option<string>): Json {
    Obj(map["name" := Str(name), "mimeType" := Str(mimeType)]
        + OptionalEntry("stagingPath", stagingPath) + OptionalEntry("dataUrl", dataUrl))
  }

  function MapAll(f: Json -> Json, items: seq<Json>): seq<Json> {
    if items == [] then [] else MapAll(f, items[..|items| - 1]) + [f(items[|items| - 1])]
  }

  /** A commentary or reasoning segment. */
  function DecodeSegment(v: Json): Option<Notes.Segment> {
    match (StringAt(v, "id"), StringAt(v, "text"), StringAt(v, "startedAt"))
    case (Some(id), Some(text), Some(startedAt)) =>
      var completedAt := if StringAt(v, "completedAt") == Some("") then None else StringAt(v, "completedAt");
      var afterSequence :=
        match Get(v, "afterSequence")
        case Some(Num(n)) => if IntegerValue(n) && n >= 0.0 then Some(n.Floor) else None
        case _ => None;
      Some(Notes.Segment(id, text, startedAt, completedAt, afterSequence))
    case _ => None
  }

  function EncodeSegment(s: Notes.Segment): Json {
    Obj(map["id" := Str(s.id), "text" := Str(s.text), "startedAt" := Str(s.startedAt)]
        + OptionalEntry("completedAt", s.completedAt)
        + (if s.afterSequence.Some? then map["afterSequence" := Num(s.afterSequence.value as real)] else map[]))
  }

  function DecodeSegments(items: seq<Json>): Option<seq<Notes.Segment>> {
    if items == [] then Some([])
    else
      match (DecodeSegments(items[..|items| - 1]), DecodeSegment(items[|items| - 1]))
      case (Some(front), Some(last)) => Some(front + [last])
      case _ => None
  }

  function EncodeSegments(segments: seq<Notes.Segment>): seq<Json> {
    if segments == [] then []
    else EncodeSegments(segments[..|segments| - 1]) + [EncodeSegment(segments[|segments| - 1])]
  }

  function ParseSegments(bound: seq<Notes.Segment> -> seq<Notes.Segment>, v: Option<Json>): Field {
    match v
    case None => Present(Arr([]))
    case Some(Arr(items)) =>
      (match DecodeSegments(items)
       case None => Rejected
       case Some(segments) => Present(Arr(EncodeSegments(bound(segments)))))
    case _ => Rejected
  }

  function LastSegments(segments: seq<Notes.Segment>): seq<Notes.Segment> {
    LastN(segments, Notes.MAX_COMMENTARY_SEGMENTS)
  }

  predicate TurnSegment(v: Json) {
    && StringAt(v, "id").Some?
    && (match Get(v, "sequence") case Some(Num(_)) => true case _ => false)
    && StringAt(v, "kind").Some?
    && StringAt(v, "kind").value in {"thinking", "text", "tool", "status"}
  }

  predicate ProseSegment(v: Json) {
    StringAt(v, "kind") == Some("thinking") || StringAt(v, "kind") == Some("text")
  }

  function SequenceOf(v: Json): real {
    match Get(v, "sequence")
    case Some(Num(n)) => n
    case _ => 0.0
  }

  predicate TurnSegmentLeq(a: Json, b: Json) {
    SequenceOf(a) < SequenceOf(b)
    || (SequenceOf(a) == SequenceOf(b) && StringLeq(StringAt(a, "id").GetOr(""), StringAt(b, "id").GetOr("")))
  }

  function BoundTurns(items: seq<Json>): seq<Json> {
    TimelineBound.Bound(ProseSegment, TurnSegmentLeq, items)
  }

  predicate ToolEvent(v: Json) {
    && (StringAt(v, "kind") == Some("tool-call") || StringAt(v, "kind") == Some("tool-result"))
    && StringAt(v, "toolId").Some?
  }

  const MODEL_RETRY_MAX := 5

  predicate PositiveInteger(v: Json) {
    v.Num? && IntegerValue(v.n) && v.n > 0.0
  }

  const MAX_FAILURE_COUNTS := 64

  /** `Object.entries`: an array lists its indices. */
  function Entries(v: Json): map<string, Json> {
    match v
    case Obj(fields) => fields
    case Arr(items) => Indexed(items)
    case _ => map[]
  }

  function Indexed(items: seq<Json>): map<string, Json> {
    if items == [] then map[]
    else Indexed(items[..|items| - 1])[Decimal(|items| - 1) := items[|items| - 1]]
  }

  function ValidCounts(entries: map<string, Json>): map<string, Json> {
    map k | k in entries && k != "" && PositiveInteger(entries[k]) :: entries[k]
  }

  /** `.slice(0, 64)`, for some fixed order of the keys. */
  function KeptCounts(valid: map<string, Json>): map<string, Json> {
    map k | k in FirstKeys(valid.Keys, MAX_FAILURE_COUNTS) :: valid[k]
  }

  function ParseFailureCounts(v: Option<Json>): Field {
    if v.None? then Absent
    else
      var kept := KeptCounts(ValidCounts(Entries(v.value)));
      if kept == map[] then Absent else Present(Obj(kept))
  }

  /** Fields that depend on nothing but their own raw value. */
  function ParseOwn(kind: Kind, v: Option<Json>): Field {
    match kind
    case RequiredString => if v.Some? && v.value.Str? then Present(v.value) else Rejected
    case RequiredNumber => if v.Some? && v.value.Num? then Present(v.value) else Rejected
    case OptionalString => if v.Some? && v.value.Str? then Present(v.value) else Absent
    case StringOr(fallback) => if v.Some? && v.value.Str? then Present(v.value) else Present(Str(fallback))
    case NonNullOr(fallback) => if v.Some? && !v.value.Null? then Present(v.value) else Present(Str(fallback))
    case OptionalNumber => if v.Some? && v.value.Num? then Present(v.value) else Absent
    case TrueOnly => if v == Some(Bool(true)) then Present(Bool(true)) else Absent
    case StringList(max) => ParseList(ParseString, max, v)
    case ImagesMode =>
      if v.Some? && v.value.Str? && v.value.s in {"forwarded", "materialized", "described", "ocr", "failed"}
      then Present(v.value) else Absent
    case RetryCount =>
      if v.Some? && v.value.Num? && IntegerValue(v.value.n) && 0.0 <= v.value.n <= MODEL_RETRY_MAX as real
      then Present(v.value) else Absent
    case FailureCounts => ParseFailureCounts(v)
    case SkillSnapshots => ParseList(ParseSkillSnapshot, 8, v)
    case ContextSources => ParseList(ParseContextSource, 256, v)
    case Images =>
      if v.Some? && v.value.Arr? then Present(Arr(MapAll(CleanImage, Filter(UsableImage, v.value.items)))) else Absent
    case CommentarySegments => ParseSegments(Notes.Bounded, v)
    case ReasoningSegments => ParseSegments(LastSegments, v)
    case Timeline =>
      if v.Some? && v.value.Arr? then Present(Arr(BoundTurns(Filter(TurnSegment, v.value.items)))) else Present(Arr([]))
    case ToolEvents =>
      if v.Some? && v.value.Arr? then Present(Arr(Filter(ToolEvent, v.value.items))) else Present(Arr([]))
    case _ => Absent  // read together with another field, below
  }

  // ------------------------------------------------ fields read with another one

  function Strings(items: seq<Json>): seq<string>
    requires forall i :: 0 <= i < |items| ==> items[i].Str?
  {
    seq(|items|, i requires 0 <= i < |items| => items[i].s)
  }

  const MAX_ATTEMPTS := 256

  /** The attempted models, the current one included, or None when the list itself
      is not acceptable. */
  function Attempts(fields: map<string, Json>): Option<seq<string>>
    requires "modelId" in fields && fields["modelId"].Str?
  {
    var model := fields["modelId"].s;
    if "attemptedModelIds" !in fields then Some([model])
    else
      match fields["attemptedModelIds"]
      case Arr(items) =>
        if |items| > MAX_ATTEMPTS || exists i :: 0 <= i < |items| && !items[i].Str? then None
        else
          var listed := Strings(items);
          Some(Unique(if model in listed then listed else listed + [model]))
      case _ => None
  }

  function StrList(s: seq<string>): Json {
    Arr(seq(|s|, i requires 0 <= i < |s| => Str(s[i])))
  }

  predicate HasRequired(fields: map<string, Json>) {
    && (forall name :: name in REQUIRED_STRINGS ==> name in fields && fields[name].Str?)
    && "nextAdapterEventIndex" in fields && fields["nextAdapterEventIndex"].Num?
  }

  function ParseField(name: string, fields: map<string, Json>): Field
    requires HasRequired(fields)
  {
    var own := if name in fields then Some(fields[name]) else None;
    match KindOf(name)
    case ProviderModelId =>
      if own.Some? && own.value.Str? then Present(own.value) else Present(fields["modelId"])
    case AttemptedModels =>
      (match Attempts(fields) case None => Rejected case Some(list) => Present(StrList(list)))
    case FakeProvider =>
      Present(Bool(own != Some(Bool(false))
                   && !("providerId" in fields && Truthy(fields["providerId"]))))
    case kind => ParseOwn(kind, own)
  }

  function ParseDemoRun(v: Json): Result<Json, RunError> {
    if !v.Obj? || !HasRequired(v.fields) then Err(InvalidRun)
    else if exists name :: name in FieldNames() && Durable(name) && ParseField(name, v.fields).Rejected? then
      Err(InvalidRun)
    else
      Ok(Obj(map name | name in FieldNames() && Durable(name) && ParseField(name, v.fields).Present? ::
               ParseField(name, v.fields).value))
  }

  // -------------------------------------------------------------- serializing

  predicate Staged(v: Json) {
    Get(v, "stagingPath").Some? && Truthy(Get(v, "stagingPath").value)
  }

  function WithoutData(v: Json): Json {
    if v.Obj? then Obj(v.fields - {"dataUrl"}) else v
  }

  function WithoutSkillText(v: Json): Json {
    if StringAt(v, "kind") == Some("skill-definition") then Obj(v.fields - {"content"}) else v
  }

  function SerializeField(kind: Kind, v: Json): Json {
    match (kind, v)
    case (Images, Arr(items)) => Arr(MapAll(WithoutData, Filter(Staged, items)))
    case (ContextSources, Arr(items)) => Arr(MapAll(WithoutSkillText, items))
    case _ => v
  }

  function SerializeDemoRun(run: Json): Json {
    if !run.Obj? then run
    else Obj(map name | name in run.fields && !Transient(name) :: SerializeField(KindOf(name), run.fields[name]))
  }

  /** What a snapshot of an accepted run holds. */
  function NormalForm(v: Json): Json
    requires ParseDemoRun(v).Ok?
  {
    SerializeDemoRun(ParseDemoRun(v).value)
  }

  /** Exactly the runs whose attempted models, the current one included, can be read
      back: the list is extended after its length was checked. */
  predicate AttemptsFit(v: Json)
    requires v.Obj? && HasRequired(v.fields)
  {
    Attempts(v.fields).Some? && |Attempts(v.fields).value| <= MAX_ATTEMPTS
  }
}
