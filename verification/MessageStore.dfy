/** The message table and the block merging of message-store-backfill.ts. */
module MessageStore {
  import opened Json
  import opened Results
  import opened Ordering

  /** A content block; `payload` is null when absent. */
  datatype Block = Block(kind: string, text: string, payload: Json)

  datatype Message = Message(id: string, threadId: string, role: string, sequence: int, blocks: seq<Block>,
                             createdAt: string, runId: Option<string>, modelId: Option<string>)

  /** Rows in the order of their creation. */
  datatype Store = Store(threads: set<string>, rows: seq<Message>)

  /** The checks of the table on a message, its sequence aside, and on a list of blocks. */
  datatype Validity = Validity(message: Message -> bool, blocks: seq<Block> -> bool)

  // ------------------------------------------------------------------- the table

  function Find(rows: seq<Message>, id: string): (r: Option<Message>)
    ensures r.Some? ==> r.value in rows && r.value.id == id
    ensures r.None? <==> forall m :: m in rows ==> m.id != id
  {
    if rows == [] then None
    else if rows[0].id == id then Some(rows[0])
    else
      assert rows == [rows[0]] + rows[1..];
      Find(rows[1..], id)
  }

  /** `MAX(sequence) + 1` of a thread, or 0. */
  function NextSequence(rows: seq<Message>, threadId: string): (n: nat)
    ensures forall m :: m in rows && m.threadId == threadId ==> m.sequence < n
    ensures n == 0 || exists m :: m in rows && m.threadId == threadId && m.sequence + 1 == n
  {
    if rows == [] then 0
    else
      var front, last := rows[..|rows| - 1], rows[|rows| - 1];
      assert rows == front + [last];
      var n := NextSequence(front, threadId);
      if last.threadId == threadId && last.sequence >= n then last.sequence + 1 else n
  }

  /** `createFinalMessage` of a new id: refused for an invalid message, an unknown thread or
      a taken sequence. */
  function Create(v: Validity, s: Store, m: Message): Option<Store>
    requires Find(s.rows, m.id).None?
  {
    if v.message(m.(sequence := 0)) && m.sequence >= 0 && m.threadId in s.threads
       && (forall other :: other in s.rows ==> !(other.threadId == m.threadId && other.sequence == m.sequence))
    then Some(s.(rows := s.rows + [m]))
    else None
  }

  function WithBlocks(rows: seq<Message>, id: string, blocks: seq<Block>): seq<Message> {
    if rows == [] then []
    else [if rows[0].id == id then rows[0].(blocks := blocks) else rows[0]] + WithBlocks(rows[1..], id, blocks)
  }

  /** `updateBlocks` of a message that exists. */
  function Update(v: Validity, s: Store, id: string, blocks: seq<Block>): Option<Store> {
    if v.blocks(blocks) then Some(s.(rows := WithBlocks(s.rows, id, blocks))) else None
  }

  lemma {:induction false} WithBlocksKeeps(rows: seq<Message>, id: string, blocks: seq<Block>)
    ensures var r := WithBlocks(rows, id, blocks);
            |r| == |rows| && forall i :: 0 <= i < |rows| ==>
              r[i] == if rows[i].id == id then rows[i].(blocks := blocks) else rows[i]
  {
    if rows != [] { WithBlocksKeeps(rows[1..], id, blocks); }
  }

  // ----------------------------------------------------------------- image blocks

  datatype Image = Image(id: string, name: string, mimeType: string, storageRef: string)

  function StringField(payload: Json, key: string): string {
    if payload.Obj? && key in payload.fields && payload.fields[key].Str? then payload.fields[key].s else ""
  }

  predicate RefChar(c: char) {
    'A' <= c <= 'Z' || 'a' <= c <= 'z' || '0' <= c <= '9' || c == '.' || c == '_' || c == '-'
  }

  predicate ImageAccepted(entry: Json) {
    && entry.Obj? && StringField(entry, "id") != "" && StringField(entry, "name") != ""
    && "image/" <= StringField(entry, "mimeType")
    && StringField(entry, "storageRef") != "" && forall c :: c in StringField(entry, "storageRef") ==> RefChar(c)
  }

  function ImageOf(entry: Json): Image {
    Image(StringField(entry, "id"), StringField(entry, "name"), StringField(entry, "mimeType"),
          StringField(entry, "storageRef"))
  }

  function ImagesOf(entries: seq<Json>): (images: seq<Image>)
    ensures forall image :: image in images ==> image.storageRef != ""
  {
    if entries == [] then []
    else (if ImageAccepted(entries[0]) then [ImageOf(entries[0])] else []) + ImagesOf(entries[1..])
  }

  /** `parseImageRefs` */
  function ParseImageRefs(value: Json): (images: seq<Image>)
    ensures forall image :: image in images ==> image.storageRef != ""
  {
    if value.Arr? then ImagesOf(value.items) else []
  }

  function BlockOf(image: Image): Block {
    Block("image", "", Obj(map["id" := Str(image.id), "name" := Str(image.name), "mimeType" := Str(image.mimeType),
                               "storageRef" := Str(image.storageRef)]))
  }

  predicate HasText(blocks: seq<Block>) {
    exists b :: b in blocks && b.kind == "text"
  }

  const EMPTY_TEXT := Block("text", "", Null)

  /** Storage references that a list of blocks shows. */
  function Refs(blocks: seq<Block>): set<string> {
    set b | b in blocks && b.kind == "image" && StringField(b.payload, "storageRef") != "" ::
      StringField(b.payload, "storageRef")
  }

  /** The images whose references are new, each once. */
  function NewImages(images: seq<Image>, seen: set<string>): seq<Image> {
    if images == [] then []
    else if images[0].storageRef in seen then NewImages(images[1..], seen)
    else [images[0]] + NewImages(images[1..], seen + {images[0].storageRef})
  }

  function BlocksOf(images: seq<Image>): seq<Block> {
    seq(|images|, i requires 0 <= i < |images| => BlockOf(images[i]))
  }

  function Base(existing: seq<Block>): seq<Block> {
    if HasText(existing) then existing else [EMPTY_TEXT] + existing
  }

  function Merged(existing: seq<Block>, images: seq<Image>): seq<Block> {
    Base(existing) + BlocksOf(NewImages(images, Refs(existing)))
  }

  lemma BlocksOfNone()
    ensures BlocksOf([]) == []
  {
  }

  lemma BlocksOfSnoc(images: seq<Image>, image: Image)
    ensures BlocksOf(images + [image]) == BlocksOf(images) + [BlockOf(image)]
  {
  }

  lemma NewImagesStep(images: seq<Image>, i: nat, seen: set<string>)
    requires i < |images|
    ensures NewImages(images[i..], seen) ==
            if images[i].storageRef in seen then NewImages(images[i + 1..], seen)
            else [images[i]] + NewImages(images[i + 1..], seen + {images[i].storageRef})
    ensures NewImages(images[|images|..], seen) == []
  {
    assert images[i..][0] == images[i] && images[i..][1..] == images[i + 1..];
  }

  method MergeImageBlocks(existing: seq<Block>, images: seq<Image>) returns (blocks: seq<Block>)
    ensures blocks == Merged(existing, images)
  {
    blocks := existing;
    if !HasText(blocks) { blocks := [EMPTY_TEXT] + blocks; }
    assert blocks == Base(existing);
    hide HasText, Refs, Base, BlockOf, BlocksOf, NewImages, RefsOf;
    BlocksOfNone();
    var seen := Refs(existing);
    assert images[0..] == images;
    ghost var added: seq<Image> := [];
    for i := 0 to |images|
      invariant blocks == Base(existing) + BlocksOf(added)
      invariant NewImages(images, Refs(existing)) == added + NewImages(images[i..], seen)
    {
      NewImagesStep(images, i, seen);
      if images[i].storageRef !in seen {
        seen := seen + {images[i].storageRef};
        BlocksOfSnoc(added, images[i]);
        ConcatAssociative(Base(existing), BlocksOf(added), [BlockOf(images[i])]);
        ConcatAssociative(added, [images[i]], NewImages(images[i + 1..], seen));
        added := added + [images[i]];
        blocks := blocks + [BlockOf(images[i])];
      }
    }
  }

  function RefsOf(images: seq<Image>): set<string> {
    set image | image in images :: image.storageRef
  }

  lemma {:induction false} NewImagesFacts(images: seq<Image>, seen: set<string>)
    ensures var added := NewImages(images, seen);
            && RefsOf(added) == RefsOf(images) - seen
            && (forall image :: image in added ==> image in images)
            && (forall i, j :: 0 <= i < j < |added| ==> added[i].storageRef != added[j].storageRef)
  {
    if images != [] {
      var first, rest := images[0], images[1..];
      assert images == [first] + rest;
      assert RefsOf(images) == {first.storageRef} + RefsOf(rest);
      if first.storageRef in seen {
        NewImagesFacts(rest, seen);
      } else {
        NewImagesFacts(rest, seen + {first.storageRef});
        var more := NewImages(rest, seen + {first.storageRef});
        assert RefsOf([first] + more) == {first.storageRef} + RefsOf(more);
        forall image | image in more ensures image.storageRef != first.storageRef {
          assert image.storageRef in RefsOf(more);
        }
      }
    }
  }

  lemma {:induction false} NothingNew(images: seq<Image>, seen: set<string>)
    requires RefsOf(images) <= seen
    ensures NewImages(images, seen) == []
  {
    if images != [] {
      assert images[0].storageRef in RefsOf(images);
      assert RefsOf(images[1..]) <= RefsOf(images);
      NothingNew(images[1..], seen);
    }
  }

  lemma RefsOfBlocks(images: seq<Image>)
    requires forall image :: image in images ==> image.storageRef != ""
    ensures Refs(BlocksOf(images)) == RefsOf(images)
  {
    var blocks := BlocksOf(images);
    forall image | image in images ensures image.storageRef in Refs(blocks) {
      var i :| 0 <= i < |images| && images[i] == image;
      assert blocks[i] in blocks;
    }
  }

  lemma RefsConcat(a: seq<Block>, b: seq<Block>)
    ensures Refs(a + b) == Refs(a) + Refs(b)
  {
  }

  /** Merging keeps the existing blocks in order behind at most a new empty text, shows
      every reference of either side, and adds none that is already shown. */
  lemma MergeFacts(existing: seq<Block>, images: seq<Image>)
    requires forall image :: image in images ==> image.storageRef != ""
    ensures HasText(Merged(existing, images)) && Refs(Merged(existing, images)) == Refs(existing) + RefsOf(images)
    ensures var added := NewImages(images, Refs(existing));
            && Merged(existing, images) == Base(existing) + BlocksOf(added)
            && RefsOf(added) == RefsOf(images) - Refs(existing)
            && (forall i, j :: 0 <= i < j < |added| ==> added[i].storageRef != added[j].storageRef)
  {
    var added := NewImages(images, Refs(existing));
    NewImagesFacts(images, Refs(existing));
    RefsOfBlocks(added);
    RefsConcat(Base(existing), BlocksOf(added));
    RefsConcat([EMPTY_TEXT], existing);
    assert HasText(Base(existing)) by { assert ([EMPTY_TEXT] + existing)[0].kind == "text"; }
    var text :| text in Base(existing) && text.kind == "text";
    assert text in Merged(existing, images);
  }

  /** Attaching the same images again, or images all of which are shown, changes nothing;
      and only then, given that there is a text. */
  lemma MergeUnchanged(existing: seq<Block>, images: seq<Image>)
    requires forall image :: image in images ==> image.storageRef != ""
    ensures Merged(existing, images) == existing <==> HasText(existing) && RefsOf(images) <= Refs(existing)
    ensures Merged(Merged(existing, images), images) == Merged(existing, images)
  {
    MergeFacts(existing, images);
    NothingNew(images, Refs(Merged(existing, images)));
    if HasText(existing) && RefsOf(images) <= Refs(existing) {
      NothingNew(images, Refs(existing));
    }
  }
}
