/** What the backfill writes for an event and attaches to a message, by the names of
    message-store-backfill.ts alone. */
module BackfillLaws {
  import opened Json
  import opened Results
  import opened MessageStore
  import opened MessageBackfill

  /** The payload's string under this key, or nothing if it is empty or no string. */
  ghost predicate Says(payload: Json, key: string, s: string) {
    s != "" && payload.Obj? && key in payload.fields && payload.fields[key] == Str(s)
  }

  ghost predicate Silent(payload: Json, key: string) {
    payload.Obj? && key in payload.fields && payload.fields[key].Str? ==> payload.fields[key] == Str("")
  }

  /** The string is the payload's, or else the event's own. */
  ghost predicate Either(payload: Json, key: string, own: string, s: string) {
    Says(payload, key, s) || (Silent(payload, key) && s == own && s != "")
  }

  /** The string is the event's own, or else the payload's. */
  ghost predicate OwnFirst(payload: Json, key: string, own: string, s: string) {
    if own != "" then s == own else Says(payload, key, s)
  }

  /** A text of the payload; one that is missing is empty. */
  ghost predicate HasText(payload: Json, key: string, text: string) {
    Says(payload, key, text) || (Silent(payload, key) && text == "")
  }

  ghost predicate Child(e: Event) {
    exists parent :: Says(e.payload, "delegationParentRunId", parent) && !Blank(parent)
  }

  /** The message of a run: of the assistant, for the run, with the model if one is named. */
  ghost predicate OfRun(e: Event, m: Message) {
    && !Child(e) && m.role == "assistant"
    && m.runId.Some? && OwnFirst(e.payload, "idempotencyKey", e.runId, m.runId.value) && m.id == "asst-" + m.runId.value
    && (match m.modelId
        case Some(model) => Says(e.payload, "modelId", model)
        case None => Silent(e.payload, "modelId"))
  }

  /** The message that the event asks for. */
  ghost predicate Asks(rules: Rules, e: Event, m: Message) {
    && Says(e.payload, "threadId", m.threadId) && m.createdAt == e.occurredAt
    && (if e.kind == "message.appended" then
          && !(e.payload.Obj? && "compact" in e.payload.fields && e.payload.fields["compact"] == Bool(true))
          && Either(e.payload, "messageId", e.messageId, m.id)
          && Says(e.payload, "role", m.role)
          && (m.role == "user" || m.role == "assistant" || m.role == "system" || m.role == "tool")
          && (exists text :: HasText(e.payload, "text", text) && m.blocks == [Block("text", text, Null)]
                             && (m.role != "user" ==> !Blank(text)))
          && m.runId == None && m.modelId == None
        else if e.kind == "run.completed" then
          && OfRun(e, m)
          && (exists text ::
                Says(e.payload, "assistantText", text) && !Blank(text) && m.blocks == [Block("text", text, Null)])
        else
          && e.kind == "run.paused" && OfRun(e, m)
          && m.blocks == [Block("error", "", Obj(map["terminalState" := Str("failed"),
                                                     "errorMessage" := Str(rules.pauseText(e.payload)),
                                                     "legacyBackfill" := Bool(true)]))])
  }

  lemma FieldIs(payload: Json, key: string)
    ensures var s := StringField(payload, key);
            && (s != "" ==> Says(payload, key, s)) && (s == "" ==> Silent(payload, key))
    ensures forall s :: Says(payload, key, s) <==> s != "" && StringField(payload, key) == s
    ensures Silent(payload, key) ==> StringField(payload, key) == ""
    ensures forall s :: HasText(payload, key, s) <==> s == StringField(payload, key)
  {
  }

  lemma EitherIs(payload: Json, key: string, own: string, s: string)
    ensures Either(payload, key, own, s) <==> s != "" && s == FirstOf(StringField(payload, key), own)
    ensures OwnFirst(payload, key, own, s) && s != "" <==> s != "" && s == FirstOf(own, StringField(payload, key))
  {
    FieldIs(payload, key);
    hide StringField, Says, Silent;
  }

  lemma ChildIs(e: Event)
    ensures Child(e) <==> !Blank(StringField(e.payload, "delegationParentRunId"))
  {
    FieldIs(e.payload, "delegationParentRunId");
    hide StringField, Says, Silent, HasText;
    assert Blank("");
  }

  /** A text is blank only without a visible letter, and always when it is spaces and breaks. */
  lemma BlankTexts(s: string)
    ensures (exists c :: c in s && '!' <= c <= '~') ==> !Blank(s)
    ensures (forall c :: c in s ==> c == ' ' || c == '\t' || c == '\n' || c == '\r') ==> Blank(s)
  {
  }

  lemma OfRunIs(e: Event, m: Message)
    ensures OfRun(e, m) <==>
              var runId := FirstOf(e.runId, StringField(e.payload, "idempotencyKey"));
              var modelId := StringField(e.payload, "modelId");
              && Blank(StringField(e.payload, "delegationParentRunId")) && runId != "" && m.role == "assistant"
              && m.runId == Some(runId) && m.id == "asst-" + runId
              && m.modelId == (if modelId != "" then Some(modelId) else None)
  {
    ChildIs(e);
    FieldIs(e.payload, "modelId");
    if m.runId.Some? { EitherIs(e.payload, "idempotencyKey", e.runId, m.runId.value); }
    hide StringField, Says, Silent, Child, Blank, HasText;
  }

  lemma AppendedIs(rules: Rules, e: Event, m: Message)
    requires e.kind == "message.appended" && m.sequence == 0
    ensures Wanted(rules, e) == Some(m) <==> Asks(rules, e, m)
  {
    FieldIs(e.payload, "threadId");
    FieldIs(e.payload, "role");
    FieldIs(e.payload, "text");
    EitherIs(e.payload, "messageId", e.messageId, m.id);
    hide StringField, Says, Silent, Blank, Either, FirstOf, HasText;
    var text := StringField(e.payload, "text");
    assert HasText(e.payload, "text", text);
    assert Asks(rules, e, m) ==> m.blocks == [Block("text", text, Null)];
  }

  lemma CompletedIs(rules: Rules, e: Event, m: Message)
    requires e.kind == "run.completed" && m.sequence == 0
    ensures Wanted(rules, e) == Some(m) <==> Asks(rules, e, m)
  {
    OfRunIs(e, m);
    FieldIs(e.payload, "threadId");
    FieldIs(e.payload, "assistantText");
    hide StringField, Says, Silent, Blank, OfRun, FirstOf, HasText;
    var text := StringField(e.payload, "assistantText");
    assert Says(e.payload, "assistantText", text) <==> text != "";
    assert Blank("") by { BlankTexts(""); }
  }

  lemma PausedIs(rules: Rules, e: Event, m: Message)
    requires e.kind == "run.paused" && m.sequence == 0
    ensures Wanted(rules, e) == Some(m) <==> Asks(rules, e, m)
  {
    OfRunIs(e, m);
    FieldIs(e.payload, "threadId");
    hide StringField, Says, Silent, Blank, OfRun, FirstOf, HasText;
  }

  /** A message is written for an event exactly when the event asks for it, it is not there yet
      and the table takes it; it becomes the last of its thread. */
  lemma WrittenMessage(rules: Rules, s: Store, e: Event, m: Message)
    ensures Project(rules, s, e) == (s.(rows := s.rows + [m]), Written) <==>
              && Asks(rules, e, m.(sequence := 0))
              && (forall other :: other in s.rows ==> other.id != m.id)
              && rules.validity.message(m.(sequence := 0)) && m.threadId in s.threads
              && m.sequence == NextSequence(s.rows, m.threadId)
  {
    var wanted := m.(sequence := 0);
    if e.kind == "message.appended" {
      AppendedIs(rules, e, wanted);
    } else if e.kind == "run.completed" {
      CompletedIs(rules, e, wanted);
    } else if e.kind == "run.paused" {
      PausedIs(rules, e, wanted);
    }
    WantedHasNoSequence(rules, e);
    assert Asks(rules, e, wanted) ==> Writes(e);
    hide Asks, Wanted, Attach;
    if Writes(e) && Wanted(rules, e).Some? {
      WrittenRow(rules, s, e, m);
    }
  }

  lemma WrittenRow(rules: Rules, s: Store, e: Event, m: Message)
    requires Writes(e) && Wanted(rules, e).Some? && Wanted(rules, e).value.sequence == 0
    ensures Project(rules, s, e) == (s.(rows := s.rows + [m]), Written) <==>
              && Wanted(rules, e) == Some(m.(sequence := 0))
              && (forall other :: other in s.rows ==> other.id != m.id)
              && rules.validity.message(m.(sequence := 0)) && m.threadId in s.threads
              && m.sequence == NextSequence(s.rows, m.threadId)
  {
    hide Wanted;
    var w := Wanted(rules, e).value;
    var n := w.(sequence := NextSequence(s.rows, w.threadId));
    assert n.(sequence := 0) == w;
    assert (s.rows + [n])[|s.rows|] == n && (s.rows + [m])[|s.rows|] == m;
  }

  /** Images are attached to the message named, where it is there: its blocks become the merged
      ones if these are new and the table takes them. Nothing else of the table changes, and
      events of other kinds change nothing. */
  lemma AttachedMessage(rules: Rules, s: Store, e: Event)
    requires e.kind != "message.appended" && e.kind != "run.completed" && e.kind != "run.paused"
    ensures var (t, verdict) := Project(rules, s, e);
            var images := ImagesAttached(e.payload);
            && (verdict == Updated <==>
                  && e.kind == "message.images-attached" && images != []
                  && exists m :: m in s.rows && Find(s.rows, m.id) == Some(m)
                                 && Either(e.payload, "messageId", e.messageId, m.id)
                                 && Merged(m.blocks, images) != m.blocks
                                 && rules.validity.blocks(Merged(m.blocks, images)))
            && (verdict != Updated ==> verdict == Skipped && t == s)
            && (verdict == Updated ==>
                  && t.threads == s.threads && |t.rows| == |s.rows|
                  && forall i :: 0 <= i < |s.rows| ==>
                       t.rows[i] == if Either(e.payload, "messageId", e.messageId, s.rows[i].id)
                                    then s.rows[i].(blocks := t.rows[i].blocks) else s.rows[i])
  {
    var id := FirstOf(StringField(e.payload, "messageId"), e.messageId);
    forall other ensures Either(e.payload, "messageId", e.messageId, other) <==> other != "" && other == id {
      EitherIs(e.payload, "messageId", e.messageId, other);
    }
    hide StringField, FirstOf, Either, Merged, ImagesAttached, Asks;
    if e.kind == "message.images-attached" && id != "" && Find(s.rows, id).Some? {
      WithBlocksKeeps(s.rows, id, Merged(Find(s.rows, id).value.blocks, ImagesAttached(e.payload)));
    }
  }

  // ------------------------------------------------------------------ images

  /** The entry is an image that can be referred to, and this is its block. */
  ghost predicate ShownAs(entry: Json, block: Block) {
    && entry.Obj?
    && (exists id, name, mimeType, ref ::
          && Says(entry, "id", id) && Says(entry, "name", name) && Says(entry, "mimeType", mimeType)
          && Says(entry, "storageRef", ref) && "image/" <= mimeType
          && (forall c :: c in ref ==> 'A' <= c <= 'Z' || 'a' <= c <= 'z' || '0' <= c <= '9' || c in {'.', '_', '-'})
          && block == Block("image", "", Obj(map["id" := Str(id), "name" := Str(name), "mimeType" := Str(mimeType),
                                                 "storageRef" := Str(ref)])))
  }

  lemma AcceptedIs(entry: Json, block: Block)
    ensures ShownAs(entry, block) <==> ImageAccepted(entry) && block == BlockOf(ImageOf(entry))
  {
    SaysField(entry, "id");
    SaysField(entry, "name");
    SaysField(entry, "mimeType");
    SaysField(entry, "storageRef");
    hide StringField, Says;
    if ImageAccepted(entry) {
      assert Says(entry, "id", StringField(entry, "id")) && Says(entry, "name", StringField(entry, "name"));
      assert Says(entry, "mimeType", StringField(entry, "mimeType"));
      assert Says(entry, "storageRef", StringField(entry, "storageRef"));
    }
  }

  lemma SaysField(payload: Json, key: string)
    ensures forall s :: Says(payload, key, s) <==> s != "" && s == StringField(payload, key)
  {
  }

  lemma {:induction false} ImagesAre(entries: seq<Json>)
    ensures forall image :: image in ImagesOf(entries) <==>
              exists i :: 0 <= i < |entries| && ImageAccepted(entries[i]) && image == ImageOf(entries[i])
  {
    hide ImageAccepted, ImageOf;
    if entries != [] {
      var rest := entries[1..];
      ImagesAre(rest);
      forall image ensures image in ImagesOf(entries) <==>
        exists i :: 0 <= i < |entries| && ImageAccepted(entries[i]) && image == ImageOf(entries[i])
      {
        if image in ImagesOf(rest) {
          var i :| 0 <= i < |rest| && ImageAccepted(rest[i]) && image == ImageOf(rest[i]);
          assert entries[i + 1] == rest[i];
        }
        if i :| 0 < i < |entries| && ImageAccepted(entries[i]) && image == ImageOf(entries[i]) {
          assert rest[i - 1] == entries[i];
        }
      }
    }
  }

  lemma AddedShown(entries: seq<Json>, image: Image)
    requires image in ImagesOf(entries)
    ensures exists i :: 0 <= i < |entries| && ShownAs(entries[i], BlockOf(image))
  {
    ImagesAre(entries);
    hide ImagesOf, ShownAs, ImageAccepted, ImageOf, BlockOf;
    var i :| 0 <= i < |entries| && ImageAccepted(entries[i]) && image == ImageOf(entries[i]);
    AcceptedIs(entries[i], BlockOf(image));
  }

  ghost predicate Shown(entries: seq<Json>, block: Block) {
    exists i :: 0 <= i < |entries| && ShownAs(entries[i], block)
  }

  lemma BlocksShown(entries: seq<Json>, added: seq<Image>)
    requires forall image :: image in added ==> image in ImagesOf(entries)
    ensures forall block :: block in BlocksOf(added) ==> Shown(entries, block)
  {
    hide ImagesOf, BlockOf, ShownAs;
    forall block | block in BlocksOf(added) ensures Shown(entries, block) {
      var k :| 0 <= k < |added| && block == BlockOf(added[k]);
      AddedShown(entries, added[k]);
    }
  }

  /** The blocks that were there, behind an empty text if there was none. */
  ghost function WithText(existing: seq<Block>): seq<Block> {
    if exists b :: b in existing && b.kind == "text" then existing else [Block("text", "", Null)] + existing
  }

  lemma AddedAre(existing: seq<Block>, entries: seq<Json>)
    ensures var added := NewImages(ImagesOf(entries), Refs(existing));
            && Merged(existing, ParseImageRefs(Arr(entries))) == WithText(existing) + BlocksOf(added)
            && forall image :: image in added ==> image in ImagesOf(entries)
  {
    NewImagesFacts(ImagesOf(entries), Refs(existing));
    hide ImagesOf, NewImages, Refs, RefsOf, BlocksOf;
  }

  /** Attaching shows the images of the event as they were sent: behind the blocks that were
      there come blocks of its usable entries, and nothing else. */
  lemma AttachedAsSent(existing: seq<Block>, entries: seq<Json>)
    ensures var r := Merged(existing, ParseImageRefs(Arr(entries)));
            && WithText(existing) <= r
            && forall block :: block in r[|WithText(existing)|..] ==> Shown(entries, block)
  {
    hide *;
    AddedAre(existing, entries);
    BlocksShown(entries, NewImages(ImagesOf(entries), Refs(existing)));
  }

  /** Every usable entry has its reference shown in the end. */
  lemma EveryImageShown(existing: seq<Block>, entries: seq<Json>, i: nat, block: Block)
    requires i < |entries| && ShownAs(entries[i], block)
    ensures StringField(block.payload, "storageRef") in Refs(Merged(existing, ParseImageRefs(Arr(entries))))
  {
    hide *;
    AcceptedIs(entries[i], block);
    BlockRef(ImageOf(entries[i]));
    ParsedImages(entries);
    ImagesAre(entries);
    MergeFacts(existing, ImagesOf(entries));
    RefIn(ImagesOf(entries), ImageOf(entries[i]));
  }

  lemma BlockRef(image: Image)
    ensures StringField(BlockOf(image).payload, "storageRef") == image.storageRef
  {
  }

  lemma ParsedImages(entries: seq<Json>)
    ensures ImagesOf(entries) == ParseImageRefs(Arr(entries))
    ensures forall image :: image in ImagesOf(entries) ==> image.storageRef != ""
  {
  }

  lemma RefIn(images: seq<Image>, image: Image)
    requires image in images
    ensures image.storageRef in RefsOf(images)
  {
  }
}
