/** Byte-bounded pages of a run's process view, run-process-page.ts. `size` is the length in
    bytes of an item's JSON text. */
module RunProcessPage {
  import opened Json
  import opened Results
  import Ordering

  const COLLECTION_BYTES := 224 * 1024
  const DEFAULT_LIMIT := 40

  datatype PageError = InvalidRange | ItemTooLarge | VersionChanged

  datatype CollectionPage = CollectionPage(offset: nat, total: nat, nextOffset: Option<nat>)

  datatype Selection = Selection(items: seq<Json>, page: CollectionPage)

  /** Bytes of a run of items, each with its separator. */
  function Bytes(items: seq<Json>, size: Json -> nat): nat {
    if items == [] then 0 else size(items[0]) + 1 + Bytes(items[1..], size)
  }

  predicate Fits(items: seq<Json>, size: Json -> nat) {
    2 + Bytes(items, size) <= COLLECTION_BYTES
  }

  /** The `k` items from `offset` on make an allowed page. */
  predicate PageFits(items: seq<Json>, size: Json -> nat, offset: nat, k: nat)
    requires offset + k <= |items|
  {
    Fits(items[offset..offset + k], size)
  }

  /** How many items fit from `offset` on, `used` bytes being taken. */
  function Taken(items: seq<Json>, size: Json -> nat, offset: nat, limit: int, used: nat): (n: nat)
    ensures offset <= |items| ==> offset + n <= |items|
    decreases |items| - offset
  {
    if offset >= |items| || limit <= 0 || used + size(items[offset]) + 1 > COLLECTION_BYTES then 0
    else 1 + Taken(items, size, offset + 1, limit - 1, used + size(items[offset]) + 1)
  }

  function Select(items: seq<Json>, size: Json -> nat, offset: nat, limit: int): Result<Selection, PageError> {
    if offset > |items| then Err(InvalidRange)
    else
      var n := Taken(items, size, offset, limit, 2);
      if n == 0 && offset < |items| && limit > 0 then Err(ItemTooLarge)
      else
        var next := if offset + n < |items| then Some(offset + n) else None;
        Ok(Selection(items[offset..offset + n], CollectionPage(offset, |items|, next)))
  }

  method SelectRunProcessCollection(items: seq<Json>, size: Json -> nat, offset: nat, limit: int)
      returns (r: Result<Selection, PageError>)
    ensures r == Select(items, size, offset, limit)
  {
    if offset > |items| { return Err(InvalidRange); }
    var selected: seq<Json> := [];
    var bytes: nat := 2;
    var index := offset;
    while index < |items| && |selected| < limit
      invariant offset <= index <= |items| && selected == items[offset..index]
      invariant Taken(items, size, offset, limit, 2)
             == |selected| + Taken(items, size, index, limit - |selected|, bytes)
    {
      var itemBytes := size(items[index]) + 1;
      if bytes + itemBytes > COLLECTION_BYTES {
        if selected == [] { return Err(ItemTooLarge); }
        break;
      }
      assert Taken(items, size, index, limit - |selected|, bytes)
          == 1 + Taken(items, size, index + 1, limit - |selected| - 1, bytes + itemBytes);
      selected := selected + [items[index]];
      bytes := bytes + itemBytes;
      index := index + 1;
    }
    var end := offset + |selected|;
    r := Ok(Selection(selected, CollectionPage(offset, |items|, if end < |items| then Some(end) else None)));
  }

  /** A page holds as many items as the limit, the budget and the collection allow, and no
      more. */
  lemma {:induction false} TakenExact(items: seq<Json>, size: Json -> nat, offset: nat, limit: nat, used: nat, k: nat)
    requires used <= COLLECTION_BYTES && offset + k <= |items|
    ensures k <= Taken(items, size, offset, limit, used) <==>
            k <= limit && used + Bytes(items[offset..offset + k], size) <= COLLECTION_BYTES
    decreases k
  {
    if k > 0 {
      var part := items[offset..offset + k];
      assert part[0] == items[offset] && part[1..] == items[offset + 1..offset + k];
      if limit > 0 && used + size(items[offset]) + 1 <= COLLECTION_BYTES {
        TakenExact(items, size, offset + 1, limit - 1, used + size(items[offset]) + 1, k - 1);
      }
    } else {
      assert items[offset..offset] == [];
    }
  }

  /** Of the items from `offset` on, `n` make the longest allowed page. */
  ghost predicate LongestPage(items: seq<Json>, size: Json -> nat, offset: nat, limit: nat, n: nat)
    requires offset <= |items|
  {
    forall k: nat {:trigger PageFits(items, size, offset, k)} :: k <= |items| - offset ==>
      (k <= n <==> k <= limit && PageFits(items, size, offset, k))
  }

  /** The longest allowed page from `offset` on. */
  ghost predicate PageIs(items: seq<Json>, size: Json -> nat, offset: nat, limit: nat, page: seq<Json>,
                         next: Option<nat>)
  {
    && offset + |page| <= |items| && page == items[offset..offset + |page|]
    && next == (if offset + |page| < |items| then Some(offset + |page|) else None)
    && (page != [] || offset == |items|)
    && LongestPage(items, size, offset, limit, |page|)
  }

  lemma SelectExact(items: seq<Json>, size: Json -> nat, offset: nat, limit: nat)
    requires offset <= |items| && limit >= 1
    ensures var r := Select(items, size, offset, limit);
            && (r.Ok? <==> offset == |items| || Fits([items[offset]], size))
            && (r.Ok? ==> PageIs(items, size, offset, limit, r.value.items, r.value.page.nextOffset))
  {
    var n := Taken(items, size, offset, limit, 2);
    if offset < |items| { FirstFits(items, size, offset, limit); }
    TakenIsPage(items, size, offset, limit);
    hide Taken, PageIs, Fits;
  }

  lemma FirstFits(items: seq<Json>, size: Json -> nat, offset: nat, limit: nat)
    requires offset < |items| && limit >= 1
    ensures Taken(items, size, offset, limit, 2) >= 1 <==> Fits([items[offset]], size)
  {
    TakenExact(items, size, offset, limit, 2, 1);
    assert items[offset..offset + 1] == [items[offset]];
    hide Taken, Bytes;
  }

  lemma TakenFits(items: seq<Json>, size: Json -> nat, offset: nat, limit: nat, k: nat)
    requires offset + k <= |items|
    ensures k <= Taken(items, size, offset, limit, 2) <==> k <= limit && PageFits(items, size, offset, k)
  {
    TakenExact(items, size, offset, limit, 2, k);
    hide Taken, Bytes;
  }

  lemma TakenIsLongest(items: seq<Json>, size: Json -> nat, offset: nat, limit: nat)
    requires offset <= |items|
    ensures LongestPage(items, size, offset, limit, Taken(items, size, offset, limit, 2))
  {
    hide Taken, PageFits;
    var n := Taken(items, size, offset, limit, 2);
    forall k: nat {:trigger PageFits(items, size, offset, k)} | k <= |items| - offset
      ensures k <= n <==> k <= limit && PageFits(items, size, offset, k)
    {
      TakenFits(items, size, offset, limit, k);
    }
  }

  lemma TakenIsPage(items: seq<Json>, size: Json -> nat, offset: nat, limit: nat)
    requires offset <= |items|
    ensures var n := Taken(items, size, offset, limit, 2);
            n > 0 || offset == |items| ==>
              PageIs(items, size, offset, limit, items[offset..offset + n],
                     if offset + n < |items| then Some(offset + n) else None)
  {
    hide Taken, LongestPage;
    TakenIsLongest(items, size, offset, limit);
    var n := Taken(items, size, offset, limit, 2);
    var page := items[offset..offset + n];
    assert |page| == n && page == items[offset..offset + |page|];
  }

  // -------------------------------------------------------------- whole views

  datatype Section = Steps | FileChanges | TaskPlan

  /** A version is the digest of a whole view; digests of different views differ. */
  datatype Version = Sha256(of: RunProcessView) | OtherVersion(text: string)

  datatype Pages = Pages(version: Version, steps: CollectionPage, fileChanges: CollectionPage, taskPlan: CollectionPage)

  datatype RunProcessView = RunProcessView(rest: Json, steps: seq<Json>, fileChanges: seq<Json>,
                                           taskPlan: Option<seq<Json>>, latestStep: Option<Json>, pages: Option<Pages>)
  {
    function Items(section: Section): seq<Json> {
      match section
      case Steps => steps
      case FileChanges => fileChanges
      case TaskPlan => taskPlan.GetOr([])
    }
  }

  datatype Request = Request(section: Section, offset: int, limit: Option<int>, version: Option<Version>)

  /** `parseRunProcessPageRequest` accepts it. */
  predicate ValidRequest(r: Request) {
    0 <= r.offset <= MAX_SAFE_INTEGER && (r.limit.Some? ==> 1 <= r.limit.value <= DEFAULT_LIMIT)
  }

  function SelectFor(process: RunProcessView, size: Json -> nat, section: Section, request: Option<Request>):
    Result<Selection, PageError>
    requires request.Some? ==> ValidRequest(request.value)
  {
    if request.Some? && request.value.section == section then
      Select(process.Items(section), size, request.value.offset, request.value.limit.GetOr(DEFAULT_LIMIT))
    else
      Select(process.Items(section), size, 0, DEFAULT_LIMIT)
  }

  function LastStep(steps: seq<Json>): Option<Json> {
    if steps == [] then None else Some(steps[|steps| - 1])
  }

  /** `paginateRunProcess` */
  function Paginate(process: RunProcessView, size: Json -> nat, request: Option<Request>):
    Result<RunProcessView, PageError>
  {
    if request.Some? && !ValidRequest(request.value) then Err(InvalidRange)
    else
      var steps :- SelectFor(process, size, Steps, request);
      var files :- SelectFor(process, size, FileChanges, request);
      var plan :- SelectFor(process, size, TaskPlan, request);
      if request.None? && steps.page.nextOffset.None? && files.page.nextOffset.None? && plan.page.nextOffset.None? then
        Ok(process)
      else if request.Some? && request.value.version.Some? && request.value.version.value != Sha256(process) then
        Err(VersionChanged)
      else
        Ok(RunProcessView(process.rest, steps.items, files.items,
                          if process.taskPlan.Some? then Some(plan.items) else None,
                          LastStep(process.steps),
                          Some(Pages(Sha256(process), steps.page, files.page, plan.page))))
  }

  function PageFor(pages: Pages, section: Section): CollectionPage {
    match section
    case Steps => pages.steps
    case FileChanges => pages.fileChanges
    case TaskPlan => pages.taskPlan
  }

  // ------------------------------------------------------------- one view, by parts

  /** Where the page of a section starts and how many items it may have. */
  function Start(request: Option<Request>, section: Section): int {
    if request.Some? && request.value.section == section then request.value.offset else 0
  }

  function Most(request: Option<Request>, section: Section): int {
    if request.Some? && request.value.section == section && request.value.limit.Some? then request.value.limit.value
    else 40
  }

  /** The part of the view for one section is the longest page from its start. */
  ghost predicate PartIs(process: RunProcessView, size: Json -> nat, request: Option<Request>, view: RunProcessView,
                         pages: Pages, section: Section)
  {
    var items, page := process.Items(section), PageFor(pages, section);
    && 0 <= Start(request, section) <= |items| && Most(request, section) >= 1
    && page.offset == Start(request, section) && page.total == |items|
    && PageIs(items, size, Start(request, section), Most(request, section), view.Items(section), page.nextOffset)
  }

  /** All of the section is its first page. */
  predicate WholeFits(items: seq<Json>, size: Json -> nat) {
    |items| <= 40 && 2 + Bytes(items, size) <= 229376
  }

  lemma SelectForExact(process: RunProcessView, size: Json -> nat, section: Section, request: Option<Request>)
    requires request.Some? ==> ValidRequest(request.value)
    ensures var r := SelectFor(process, size, section, request);
            var items, start, most := process.Items(section), Start(request, section), Most(request, section);
            && (r.Ok? <==> start <= |items| && (start == |items| || Fits([items[start]], size)))
            && (r.Ok? ==> r.value.page.offset == start && r.value.page.total == |items| && most >= 1
                          && |r.value.items| <= |items|
                          && PageIs(items, size, start, most, r.value.items, r.value.page.nextOffset))
  {
    hide Taken, Fits, PageIs;
    var start := Start(request, section);
    if start <= |process.Items(section)| { SelectExact(process.Items(section), size, start, Most(request, section)); }
  }

  lemma WholeIsFirstPage(items: seq<Json>, size: Json -> nat, page: seq<Json>, next: Option<nat>)
    requires PageIs(items, size, 0, 40, page, next)
    ensures next.None? <==> WholeFits(items, size)
    ensures next.None? ==> page == items
  {
    assert items[0..0 + |items|] == items;
    assert PageFits(items, size, 0, |items|) <==> 2 + Bytes(items, size) <= 229376;
    hide PageFits;
    assert |items| <= |page| <==> |items| <= 40 && PageFits(items, size, 0, |items|);
  }

  /** What is given for any request, or none: of every section the longest page of at most 229376
      bytes and 40 items, or as many as asked for, from the start or the offset asked for; with
      the last of all steps and the version. Without a request a view that fits is given whole.
      It fails exactly for a request out of range, a first item that is too large, or another
      version. */
  lemma PaginateByParts(process: RunProcessView, size: Json -> nat, request: Option<Request>)
    ensures var r := Paginate(process, size, request);
            var whole := forall section: Section :: WholeFits(process.Items(section), size);
            && (r.Ok? <==>
                  && (request.Some? ==>
                        && 0 <= request.value.offset <= 9007199254740991
                        && (request.value.limit.Some? ==> 1 <= request.value.limit.value <= 40)
                        && (request.value.version.Some? ==> request.value.version.value == Sha256(process)))
                  && forall section: Section ::
                       var items, start := process.Items(section), Start(request, section);
                       0 <= start <= |items| && (start == |items| || Fits([items[start]], size)))
            && (request.None? && r.Ok? && whole ==> r == Ok(process))
            && (r.Ok? && !(request.None? && whole) ==>
                  && r.value.rest == process.rest && (r.value.taskPlan.Some? <==> process.taskPlan.Some?)
                  && r.value.latestStep == (if process.steps == [] then None
                                            else Some(process.steps[|process.steps| - 1]))
                  && r.value.pages.Some? && r.value.pages.value.version == Sha256(process)
                  && forall section: Section :: PartIs(process, size, request, r.value, r.value.pages.value, section))
  {
    hide Select, SelectFor, Fits, PageIs, WholeFits;
    if request.None? || ValidRequest(request.value) {
      forall section: Section
        ensures var r := SelectFor(process, size, section, request);
                var items, start, most := process.Items(section), Start(request, section), Most(request, section);
                && (r.Ok? <==> start <= |items| && (start == |items| || Fits([items[start]], size)))
                && (r.Ok? ==> r.value.page.offset == start && r.value.page.total == |items| && most >= 1
                              && |r.value.items| <= |items|
                              && PageIs(items, size, start, most, r.value.items, r.value.page.nextOffset))
                && (r.Ok? && request.None? ==>
                      (r.value.page.nextOffset.None? <==> WholeFits(items, size))
                      && (r.value.page.nextOffset.None? ==> r.value.items == items))
      {
        SelectForExact(process, size, section, request);
        var r := SelectFor(process, size, section, request);
        if r.Ok? && request.None? {
          WholeIsFirstPage(process.Items(section), size, r.value.items, r.value.page.nextOffset);
        }
      }
    }
  }

  // ------------------------------------------------------------------- page walks

  /** What a reader collects of a section: pages from `offset` on, following `nextOffset`,
      all asked for in the version of `first`. `server` gives the view at each call. */
  function Walk(server: nat -> RunProcessView, size: Json -> nat, first: RunProcessView, section: Section, limit: int,
                call: nat, offset: nat): Result<seq<Json>, PageError>
    requires 1 <= limit <= DEFAULT_LIMIT
    decreases |first.Items(section)| - offset
  {
    var request := Request(section, offset, Some(limit), Some(Sha256(first)));
    match Paginate(server(call), size, Some(request))
    case Err(e) => Err(e)
    case Ok(view) =>
      PageOfWalk(server(call), size, first, section, limit, offset);
      var next := PageFor(view.pages.value, section).nextOffset;
      if next.None? then Ok(view.Items(section))
      else
        match Walk(server, size, first, section, limit, call + 1, next.value)
        case Err(e) => Err(e)
        case Ok(rest) => Ok(view.Items(section) + rest)
  }

  /** One call of a walk: it succeeds only in the version asked for, and gives the next
      stretch of the section. */
  lemma PageOfWalk(process: RunProcessView, size: Json -> nat, first: RunProcessView, section: Section, limit: int,
                   offset: nat)
    requires 1 <= limit <= DEFAULT_LIMIT
    ensures var request := Request(section, offset, Some(limit), Some(Sha256(first)));
            var r := Paginate(process, size, Some(request));
            && (r.Ok? ==>
                  var items := first.Items(section);
                  && process == first && r.value.pages.Some? && offset <= |items|
                  && var next := PageFor(r.value.pages.value, section).nextOffset;
                     && (next.None? ==> r.value.Items(section) == items[offset..])
                     && (next.Some? ==>
                           offset < next.value < |items| && r.value.Items(section) == items[offset..next.value]))
  {
    var request := Request(section, offset, Some(limit), Some(Sha256(first)));
    var items := process.Items(section);
    if ValidRequest(request) && offset <= |items| {
      SelectExact(items, size, offset, limit);
      hide Select, LongestPage, Fits;
      var r := Select(items, size, offset, limit);
      if r.Ok? && r.value.page.nextOffset.None? {
        assert offset + |r.value.items| == |items|;
        assert items[offset..|items|] == items[offset..];
      }
    } else {
      hide Taken;
    }
  }

  /** A finished walk has collected exactly the rest of the section, in order, whatever the
      server's view was at each call: a changed view ends the walk instead. */
  lemma {:induction false} WalkCollects(server: nat -> RunProcessView, size: Json -> nat, first: RunProcessView,
                                        section: Section, limit: int, call: nat, offset: nat)
    requires 1 <= limit <= DEFAULT_LIMIT
    ensures var r := Walk(server, size, first, section, limit, call, offset);
            r.Ok? ==> offset <= |first.Items(section)| && r.value == first.Items(section)[offset..]
    decreases |first.Items(section)| - offset
  {
    PageOfWalk(server(call), size, first, section, limit, offset);
    hide Paginate;
    var r := Walk(server, size, first, section, limit, call, offset);
    if r.Ok? {
      var request := Request(section, offset, Some(limit), Some(Sha256(first)));
      var view := Paginate(server(call), size, Some(request)).value;
      var next := PageFor(view.pages.value, section).nextOffset;
      if next.Some? {
        WalkCollects(server, size, first, section, limit, call + 1, next.value);
        Ordering.SplitAt(first.Items(section), offset, next.value);
      }
    }
  }

  /** Every item from `offset` on fits a page of its own, and so do the first items of the
      other sections, which every page also carries. */
  predicate Pageable(process: RunProcessView, size: Json -> nat, section: Section, offset: nat) {
    var items := process.Items(section);
    && offset <= |items| <= MAX_SAFE_INTEGER
    && (forall k :: offset <= k < |items| ==> Fits([items[k]], size))
    && (forall other: Section :: other != section && process.Items(other) != [] ==>
          Fits([process.Items(other)[0]], size))
  }

  /** Against an unchanging view, following `nextOffset` reaches the end exactly when the
      section is pageable. */
  lemma {:induction false} WalkFinishes(server: nat -> RunProcessView, size: Json -> nat, first: RunProcessView,
                                        section: Section, limit: int, call: nat, offset: nat)
    requires 1 <= limit <= DEFAULT_LIMIT && (forall k :: server(k) == first)
    requires offset <= |first.Items(section)| <= MAX_SAFE_INTEGER
    ensures Walk(server, size, first, section, limit, call, offset).Ok? <==> Pageable(first, size, section, offset)
    decreases |first.Items(section)| - offset
  {
    var request := Request(section, offset, Some(limit), Some(Sha256(first)));
    var page := Paginate(first, size, Some(request));
    PageOfWalk(first, size, first, section, limit, offset);
    PageExists(first, size, section, limit, offset);
    if page.Ok? {
      var next := PageFor(page.value.pages.value, section).nextOffset;
      if next.Some? {
        WalkFinishes(server, size, first, section, limit, call + 1, next.value);
      }
    }
  }

  /** When a page of a walk exists, and which items it has shown to fit. */
  lemma PageExists(process: RunProcessView, size: Json -> nat, section: Section, limit: int, offset: nat)
    requires 1 <= limit <= DEFAULT_LIMIT && offset <= |process.Items(section)| <= MAX_SAFE_INTEGER
    ensures var r := Paginate(process, size, Some(Request(section, offset, Some(limit), Some(Sha256(process)))));
            var items := process.Items(section);
            && (r.Ok? <==>
                  && (offset < |items| ==> Fits([items[offset]], size))
                  && (forall other: Section :: other != section && process.Items(other) != [] ==>
                        Fits([process.Items(other)[0]], size)))
            && (r.Ok? ==>
                  var next := PageFor(r.value.pages.value, section).nextOffset;
                  forall k :: offset <= k < |items| && (next.Some? ==> k < next.value) ==> Fits([items[k]], size))
  {
    var request := Some(Request(section, offset, Some(limit), Some(Sha256(process))));
    var items := process.Items(section);
    OnePage(process, size, Steps, request, section, limit, offset);
    OnePage(process, size, FileChanges, request, section, limit, offset);
    OnePage(process, size, TaskPlan, request, section, limit, offset);
    hide Select, Taken, Fits;
    var r := Paginate(process, size, request);
    if r.Ok? {
      assert SelectFor(process, size, section, request).value.page == PageFor(r.value.pages.value, section);
    }
  }

  lemma OnePage(process: RunProcessView, size: Json -> nat, part: Section, request: Option<Request>, section: Section,
                limit: int, offset: nat)
    requires request == Some(Request(section, offset, Some(limit), Some(Sha256(process))))
    requires ValidRequest(request.value) && offset <= |process.Items(section)|
    ensures var r := SelectFor(process, size, part, request);
            var items := process.Items(part);
            && (part != section ==> (r.Ok? <==> items == [] || Fits([items[0]], size)))
            && (part == section ==> (r.Ok? <==> offset == |items| || Fits([items[offset]], size)))
            && (part == section && r.Ok? ==>
                  var next := r.value.page.nextOffset;
                  forall k :: offset <= k < |items| && (next.Some? ==> k < next.value) ==> Fits([items[k]], size))
  {
    var items := process.Items(part);
    SelectExact(items, size, if part == section then offset else 0, if part == section then limit else DEFAULT_LIMIT);
    if part == section {
      var r := Select(items, size, offset, limit);
      hide Select, Fits;
      if r.Ok? {
        var n := |r.value.items|;
        assert PageFits(items, size, offset, n);
        forall k | offset <= k < offset + n ensures Fits([items[k]], size) {
          ItemOfPage(items, size, offset, n, k);
        }
      }
    }
  }

  lemma {:induction false} ItemOfPage(items: seq<Json>, size: Json -> nat, offset: nat, n: nat, k: nat)
    requires offset + n <= |items| && PageFits(items, size, offset, n) && offset <= k < offset + n
    ensures Fits([items[k]], size)
  {
    var page := items[offset..offset + n];
    ItemBelowSum(page, size, k - offset);
    assert [items[k]][1..] == [];
  }

  lemma {:induction false} ItemBelowSum(page: seq<Json>, size: Json -> nat, k: nat)
    requires k < |page|
    ensures size(page[k]) + 1 <= Bytes(page, size)
  {
    if k > 0 { ItemBelowSum(page[1..], size, k - 1); }
  }
}
