/** The structural diff of run-state-delta.ts, and the loops that apply a delta. */
module RunStateDiff {
  import opened Results
  import opened Json
  import opened RunStateDelta
  import opened DiffEffort
  import Ordering

  /** The `operations` array that `diffValue` pushes into. */
  class OperationLog {
    var items: seq<Operation>

    constructor ()
      ensures items == []
    {
      items := [];
    }
  }

  // -------------------------------------------------------------- inserted rows

  predicate HasKey(rows: seq<Json>, key: Option<RowKey>) {
    exists i :: 0 <= i < |rows| && KeyOf(rows[i]) == key
  }

  /** Rows of `next` whose key does not occur in `previous`, in order. */
  function NewRows(previous: seq<Json>, next: seq<Json>): seq<Json> {
    if next == [] then []
    else
      var last := next[|next| - 1];
      NewRows(previous, next[..|next| - 1]) + if HasKey(previous, KeyOf(last)) then [] else [last]
  }

  /** Wherever rows keyed `a` and `b` occur, the one keyed `a` comes first. */
  ghost predicate KeysInOrder(rows: seq<Json>, a: Option<RowKey>, b: Option<RowKey>) {
    forall p, q :: 0 <= p < |rows| && 0 <= q < |rows| && KeyOf(rows[p]) == a && KeyOf(rows[q]) == b ==> p < q
  }

  /** Rows present on both sides keep their relative order. */
  ghost predicate OrderPreserved(previous: seq<Json>, next: seq<Json>) {
    forall i, j {:trigger KeysInOrder(previous, KeyOf(next[i]), KeyOf(next[j]))} ::
      0 <= i < j < |next| ==> KeysInOrder(previous, KeyOf(next[i]), KeyOf(next[j]))
  }

  /** The rows that the operations on the array itself carry in full. */
  ghost function InsertedRows(ops: seq<Operation>): seq<Json> {
    if ops == [] then []
    else
      var last := ops[|ops| - 1];
      InsertedRows(ops[..|ops| - 1])
      + if last.path == [] && last.edit.Splice? then last.edit.values else []
  }

  lemma {:induction false} InsertedRowsConcat(a: seq<Operation>, b: seq<Operation>)
    ensures InsertedRows(a + b) == InsertedRows(a) + InsertedRows(b)
    decreases |b|
  {
    if b == [] {
      assert a + b == a;
    } else {
      assert (a + b)[..|a + b| - 1] == a + b[..|b| - 1];
      InsertedRowsConcat(a, b[..|b| - 1]);
    }
  }

  lemma {:induction false} LiftedInsertNothing(key: Key, ops: seq<Operation>)
    ensures InsertedRows(LiftAll(key, ops)) == []
    decreases |ops|
  {
    if ops != [] {
      InsertedRowsConcat([Lift(key, ops[0])], LiftAll(key, ops[1..]));
      assert [Lift(key, ops[0])][..0] == [];
      LiftedInsertNothing(key, ops[1..]);
    }
  }

  // ------------------------------------------------------------------ strings

  /** The longest common prefix, then the longest common suffix of what is left. */
  method CommonAffixes(previous: string, next: string) returns (prefix: nat, suffix: nat)
    ensures prefix + suffix <= |previous| && prefix + suffix <= |next|
    ensures previous[..prefix] == next[..prefix]
    ensures previous[|previous| - suffix..] == next[|next| - suffix..]
    ensures prefix == |previous| || prefix == |next| || previous[prefix] != next[prefix]
    ensures prefix + suffix == |previous| || prefix + suffix == |next|
            || previous[|previous| - suffix - 1] != next[|next| - suffix - 1]
  {
    prefix := 0;
    while prefix < |previous| && prefix < |next| && previous[prefix] == next[prefix]
      invariant prefix <= |previous| && prefix <= |next|
      invariant previous[..prefix] == next[..prefix]
    {
      LongerPrefix(previous, next, prefix);
      prefix := prefix + 1;
    }
    suffix := 0;
    while suffix < |previous| - prefix && suffix < |next| - prefix
          && previous[|previous| - suffix - 1] == next[|next| - suffix - 1]
      invariant prefix + suffix <= |previous| && prefix + suffix <= |next|
      invariant previous[|previous| - suffix..] == next[|next| - suffix..]
    {
      LongerSuffix(previous, next, suffix);
      suffix := suffix + 1;
    }
  }

  lemma LongerPrefix(a: string, b: string, n: nat)
    requires n < |a| && n < |b| && a[..n] == b[..n] && a[n] == b[n]
    ensures a[..n + 1] == b[..n + 1]
  {
    assert a[..n + 1] == a[..n] + [a[n]] && b[..n + 1] == b[..n] + [b[n]];
  }

  lemma LongerSuffix(a: string, b: string, n: nat)
    requires n < |a| && n < |b| && a[|a| - n..] == b[|b| - n..] && a[|a| - n - 1] == b[|b| - n - 1]
    ensures a[|a| - n - 1..] == b[|b| - n - 1..]
  {
    assert a[|a| - n - 1..] == [a[|a| - n - 1]] + a[|a| - n..];
    assert b[|b| - n - 1..] == [b[|b| - n - 1]] + b[|b| - n..];
  }

  /** A splice of the differing middle when that saves more than 64 characters,
      the whole new text otherwise. */
  method DiffText(previous: string, next: string) returns (edit: Edit)
    ensures ApplyEdits(Str(previous), [Operation([], edit)]) == Ok(Str(next))
    ensures edit.Text? ==> |edit.text| + 64 < |next|
    ensures edit.Text? || edit == Set(Str(next))
    ensures previous <= next && |previous| > 64 ==> edit == Text(|previous|, 0, next[|previous|..])
  {
    hide ApplyEdits;
    var prefix, suffix := CommonAffixes(previous, next);
    var text := next[prefix..|next| - suffix];
    if |text| + 64 < |next| {
      edit := Text(prefix, |previous| - prefix - suffix, text);
      TextSpliced(previous, next, prefix, suffix);
    } else {
      edit := Set(Str(next));
      ReplacedWhole(Str(previous), Str(next));
    }
  }

  lemma TextSpliced(previous: string, next: string, prefix: nat, suffix: nat)
    requires prefix + suffix <= |previous| && prefix + suffix <= |next|
    requires previous[..prefix] == next[..prefix] && previous[|previous| - suffix..] == next[|next| - suffix..]
    ensures var edit := Text(prefix, |previous| - prefix - suffix, next[prefix..|next| - suffix]);
            ApplyEdits(Str(previous), [Operation([], edit)]) == Ok(Str(next))
  {
    hide ApplyEdits;
    Ordering.SplitAt(next, prefix, |next| - suffix);
    var edit := Text(prefix, |previous| - prefix - suffix, next[prefix..|next| - suffix]);
    SingleEdit(Str(previous), Operation([], edit));
  }

  lemma ReplacedWhole(previous: Json, next: Json)
    ensures ApplyEdits(previous, [Operation([], Set(next))]) == Ok(next)
  {
    hide ApplyEdits;
    SingleEdit(previous, Operation([], Set(next)));
  }

  lemma SingleEdit(root: Json, op: Operation)
    ensures ApplyEdits(root, [op]) == ApplyEdit(root, op)
  {
    if ApplyEdit(root, op).Ok? {
      assert [op][1..] == [];
      assert ApplyEdits(ApplyEdit(root, op).value, []) == ApplyEdit(root, op);
    }
  }

  // ------------------------------------------------------- bookkeeping of paths

  /** At `path` there is room for so many levels, the value there being one of them. */
  predicate Room(path: Path, levels: nat) {
    levels == 0 || |path| + levels <= MAX_PATH + 1
  }

  /** Every operation, once prefixed with `path`, passes `ValidPath`. */
  ghost predicate PathsFit(ops: seq<Operation>, path: Path) {
    forall i :: 0 <= i < |ops| ==> |path| + |ops[i].path| <= MAX_PATH
  }

  ghost predicate IndicesFit(ops: seq<Operation>) {
    forall i :: 0 <= i < |ops| ==> forall j :: 0 <= j < |ops[i].path| ==>
      (ops[i].path[j].Index? ==> ops[i].path[j].index >= 0)
  }

  /** The operations are as many as the effort says, and exactly as long. */
  ghost predicate Spent(ops: seq<Operation>, path: Path, e: Effort) {
    |ops| == e.operations && (PathsFit(ops, path) <==> Room(path, e.touched))
  }

  /** Of a total effort, all but `rest` has been spent, and the diff has not thrown. */
  ghost predicate SpentSoFar(ops: seq<Operation>, path: Path, rest: Effort, total: Effort) {
    && |ops| + rest.operations == total.operations
    && (PathsFit(ops, path) && Room(path, rest.touched) <==> Room(path, total.touched))
    && (Room(path, rest.entered) <==> Room(path, total.entered))
  }

  lemma SpentStart(path: Path, total: Effort)
    ensures SpentSoFar([], path, total, total)
  {
  }

  lemma RoomBoth(path: Path, a: Effort, b: Effort)
    ensures Room(path, Both(a, b).touched) <==> Room(path, a.touched) && Room(path, b.touched)
    ensures Room(path, Both(a, b).entered) <==> Room(path, a.entered) && Room(path, b.entered)
    ensures Both(a, b).operations == a.operations + b.operations
  {
  }

  lemma SpentStep(ops: seq<Operation>, stepOps: seq<Operation>, path: Path, step: Effort, rest: Effort, total: Effort)
    requires SpentSoFar(ops, path, Both(step, rest), total) && Spent(stepOps, path, step) && Room(path, step.entered)
    ensures SpentSoFar(ops + stepOps, path, rest, total)
  {
    RoomBoth(path, step, rest);
    FitConcat(ops, stepOps, path);
    hide Both, PathsFit, IndicesFit, Room;
  }

  lemma SpentFails(ops: seq<Operation>, path: Path, step: Effort, rest: Effort, total: Effort)
    requires SpentSoFar(ops, path, Both(step, rest), total) && !Room(path, step.entered)
    ensures !Room(path, total.entered)
  {
    RoomBoth(path, step, rest);
    hide Both, PathsFit, Room;
  }

  lemma SpentPush(path: Path, edit: Edit)
    ensures Spent([Operation([], edit)], path, PUSH) && Room(path, PUSH.entered)
  {
    var ops := [Operation([], edit)];
    assert PathsFit(ops, path) <==> |path| + |ops[0].path| <= MAX_PATH;
  }

  lemma FitConcat(a: seq<Operation>, b: seq<Operation>, path: Path)
    ensures IndicesFit(a) && IndicesFit(b) ==> IndicesFit(a + b)
    ensures PathsFit(a + b, path) <==> PathsFit(a, path) && PathsFit(b, path)
  {
    assert forall i :: 0 <= i < |a| ==> (a + b)[i] == a[i];
    assert forall i :: 0 <= i < |b| ==> (a + b)[|a| + i] == b[i];
  }

  /** Operations of a child, addressed from its parent. */
  lemma SpentLift(childOps: seq<Operation>, path: Path, key: Key, e: Effort)
    ensures Spent(childOps, path + [key], e) ==> Spent(LiftAll(key, childOps), path, Below(e))
    ensures Room(path + [key], e.entered) <==> Room(path, Below(e).entered)
  {
    LiftAllAt(key, childOps);
    var ops := LiftAll(key, childOps);
    assert forall i :: 0 <= i < |ops| ==> |path| + |ops[i].path| == |path + [key]| + |childOps[i].path|;
  }

  /** What a call of the diff that found `rel` below `path` guarantees. It fails exactly when
      it would enter a value deeper than allowed. */
  ghost predicate Diffed(previous: Json, next: Json, path: Path, rel: seq<Operation>, outcome: Outcome<DeltaError>) {
    match outcome
    case Pass =>
      && IndicesFit(rel)
      && ApplyEdits(previous, rel) == Ok(next)
      && Spent(rel, path, EffortOf(previous, next)) && Room(path, EffortOf(previous, next).entered)
    case Fail(error) => error == InvalidPath && !Room(path, EffortOf(previous, next).entered)
  }

  lemma {:induction false} PrefixedConcat(path: Path, a: seq<Operation>, b: seq<Operation>)
    ensures Prefixed(path, a + b) == Prefixed(path, a) + Prefixed(path, b)
    decreases |a|
  {
    if a == [] {
      assert a + b == b;
    } else {
      assert (a + b)[1..] == a[1..] + b;
      PrefixedConcat(path, a[1..], b);
    }
  }

  /** The log after a further group of operations below `path`. */
  lemma Logged(base: seq<Operation>, path: Path, a: seq<Operation>, b: seq<Operation>)
    ensures base + Prefixed(path, a) + Prefixed(path, b) == base + Prefixed(path, a + b)
  {
    PrefixedConcat(path, a, b);
    hide *;
    assert base + Prefixed(path, a) + Prefixed(path, b) == base + (Prefixed(path, a) + Prefixed(path, b));
  }

  lemma NothingLogged(base: seq<Operation>, path: Path)
    ensures base == base + Prefixed(path, [])
  {
  }

  /** The log after one `push` of an operation on the value at `path` itself. */
  lemma Pushed(base: seq<Operation>, path: Path, a: seq<Operation>, edit: Edit)
    ensures base + Prefixed(path, a) + [Operation(path, edit)] == base + Prefixed(path, a + [Operation([], edit)])
    ensures a == [] ==> base + [Operation(path, edit)] == base + Prefixed(path, [Operation([], edit)])
  {
    assert path + [] == path;
    assert Prefixed(path, [Operation([], edit)]) == [Operation(path, edit)];
    Logged(base, path, a, [Operation([], edit)]);
    assert a == [] ==> a + [Operation([], edit)] == [Operation([], edit)] && base + Prefixed(path, a) == base;
  }

  lemma {:induction false} PrefixedLift(prefix: Path, key: Key, ops: seq<Operation>)
    ensures Prefixed(prefix + [key], ops) == Prefixed(prefix, LiftAll(key, ops))
    decreases |ops|
  {
    if ops != [] {
      assert prefix + [key] + ops[0].path == prefix + ([key] + ops[0].path);
      PrefixedLift(prefix, key, ops[1..]);
    }
  }

  /** One more operation on the value itself. */
  lemma AppendEdit(root: Json, rel: seq<Operation>, current: Json, op: Operation)
    requires ApplyEdits(root, rel) == Ok(current)
    ensures ApplyEdits(root, rel + [op]) == ApplyEdit(current, op)
  {
    ApplyEditsConcat(root, rel, [op]);
    SingleEdit(current, op);
  }

  // ------------------------------------------------------------------ the diff

  method DiffValue(previous: Json, next: Json, path: Path, log: OperationLog)
    returns (outcome: Outcome<DeltaError>, ghost rel: seq<Operation>)
    modifies log
    ensures log.items == old(log.items) + Prefixed(path, rel)
    ensures Diffed(previous, next, path, rel, outcome)
    ensures previous.Arr? && next.Arr? && Keyed(previous.items) && Keyed(next.items)
            && OrderPreserved(previous.items, next.items) && outcome.Pass?
            ==> InsertedRows(rel) == NewRows(previous.items, next.items)
    decreases 2 * MAX_PATH - |path|, 5
  {
    outcome, rel := Pass, [];
    FlatEffort(previous, next);
    hide EffortOf;
    if previous == next && previous.Primitive?() { return; }
    if |path| > MAX_PATH { return Fail(InvalidPath), []; }
    if previous.Str? && next.Str? {
      var edit := DiffText(previous.s, next.s);
      log.items := log.items + [Operation(path, edit)];
      rel := [Operation([], edit)];
      assert path + [] == path;
    } else if previous.Arr? && next.Arr? {
      if Keyed(previous.items) && Keyed(next.items) {
        outcome, rel := DiffKeyedRows(previous.items, next.items, path, log);
      } else {
        outcome, rel := DiffPlainRows(previous.items, next.items, path, log);
      }
    } else if previous.Obj? && next.Obj? {
      outcome, rel := DiffRecord(previous.fields, next.fields, path, log);
    } else {
      log.items := log.items + [Operation(path, Set(next))];
      rel := [Operation([], Set(next))];
      SingleEdit(previous, rel[0]);
      assert path + [] == path;
    }
  }

  /** The effort of the branches that do not recurse. */
  lemma FlatEffort(previous: Json, next: Json)
    ensures var same := previous == next && previous.Primitive?();
            && (same ==> EffortOf(previous, next) == NOTHING)
            && (!same ==> EffortOf(previous, next).entered >= 1)
            && (!same && !(previous.Arr? && next.Arr?) && !(previous.Obj? && next.Obj?) ==>
                  EffortOf(previous, next) == Both(ENTER, PUSH))
  {
    hide KeyedEffort, PlainEffort, FieldsEffort, Keyed;
  }

  /** `diffValue` on a child that both sides have, addressed from the parent. */
  method DiffChild(previous: Json, next: Json, key: Key, path: Path, log: OperationLog)
    returns (outcome: Outcome<DeltaError>, ghost rel: seq<Operation>)
    requires |path| <= MAX_PATH && (key.Index? ==> key.index >= 0)
    modifies log
    ensures log.items == old(log.items) + Prefixed(path, rel)
    ensures ChildDone(previous, next, key, path, outcome, rel)
    decreases 2 * MAX_PATH - |path|, 0
  {
    hide *;
    ghost var childRel;
    outcome, childRel := DiffValue(previous, next, path + [key], log);
    rel := LiftAll(key, childRel);
    PrefixedLift(path, key, childRel);
    LiftDone(previous, next, key, path, outcome, childRel);
  }

  /** What a call on a child guarantees, addressed from its parent. */
  lemma LiftDone(previous: Json, next: Json, key: Key, path: Path, outcome: Outcome<DeltaError>,
                 childRel: seq<Operation>)
    requires Diffed(previous, next, path + [key], childRel, outcome) && (key.Index? ==> key.index >= 0)
    ensures ChildDone(previous, next, key, path, outcome, LiftAll(key, childRel))
  {
    hide EffortOf, ApplyEdits, PathsFit, Spent, Room, Below, InsertedRows;
    SpentLift(childRel, path, key, EffortOf(previous, next));
    LiftedInsertNothing(key, childRel);
    if outcome.Pass? {
      LiftIndices(key, childRel);
      forall root | HasChild(root, key) && Child(root, key) == previous
        ensures ApplyEdits(root, LiftAll(key, childRel)) == Ok(Put(root, key, next))
      {
        LiftedEdits(root, key, childRel);
      }
    }
    hide IndicesFit, LiftAll;
  }

  lemma LiftIndices(key: Key, ops: seq<Operation>)
    requires IndicesFit(ops) && (key.Index? ==> key.index >= 0)
    ensures IndicesFit(LiftAll(key, ops))
  {
    LiftAllAt(key, ops);
    hide LiftAll;
  }

  /** What the diff of a child guarantees, seen from its parent at `path`. */
  ghost predicate ChildDone(previous: Json, next: Json, key: Key, path: Path,
                            outcome: Outcome<DeltaError>, rel: seq<Operation>) {
    match outcome
    case Pass =>
      && IndicesFit(rel) && InsertedRows(rel) == []
      && EditsChild(previous, next, key, rel)
      && Spent(rel, path, Below(EffortOf(previous, next))) && Room(path, Below(EffortOf(previous, next)).entered)
    case Fail(error) => error == InvalidPath && !Room(path, Below(EffortOf(previous, next)).entered)
  }

  /** In any state whose child at `key` is `previous`, `rel` turns that child into `next`. */
  ghost predicate EditsChild(previous: Json, next: Json, key: Key, rel: seq<Operation>) {
    forall root {:trigger ApplyEdits(root, rel)} :: HasChild(root, key) && Child(root, key) == previous
                   ==> ApplyEdits(root, rel) == Ok(Put(root, key, next))
  }

  /** The keyed branch: rows are matched by key, so unchanged rows are never sent. */
  method DiffKeyedRows(previous: seq<Json>, next: seq<Json>, path: Path, log: OperationLog)
    returns (outcome: Outcome<DeltaError>, ghost rel: seq<Operation>)
    requires |path| <= MAX_PATH && Keyed(previous) && Keyed(next)
    modifies log
    ensures log.items == old(log.items) + Prefixed(path, rel)
    ensures Diffed(Arr(previous), Arr(next), path, rel, outcome)
    ensures outcome.Pass? && OrderPreserved(previous, next) ==> InsertedRows(rel) == NewRows(previous, next)
    decreases 2 * MAX_PATH - |path|, 4
  {
    var working;
    ghost var q;
    outcome, working, rel, q := MatchRows(previous, next, path, log);
    KeyedTotal(previous, next);
    hide *;
    if outcome.Fail? {
      KeyedFailed(previous, next, path, working, q, rel, outcome);
      return;
    }
    if |working| > |next| {
      var edit := Splice(|next|, |working| - |next|, []);
      log.items := log.items + [Operation(path, edit)];
      Pushed(old(log.items), path, rel, edit);
      KeyedTail(previous, next, path, working, q, rel);
      rel := rel + [Operation([], edit)];
    } else {
      KeyedDone(previous, next, path, working, q, rel);
    }
  }

  /** The loop over the new rows. */
  method MatchRows(previous: seq<Json>, next: seq<Json>, path: Path, log: OperationLog)
    returns (outcome: Outcome<DeltaError>, working: seq<Json>, ghost rel: seq<Operation>, ghost q: nat)
    requires |path| <= MAX_PATH
    modifies log
    ensures log.items == old(log.items) + Prefixed(path, rel)
    ensures KeyedSoFar(previous, next, path, |next|, working, q, rel, outcome)
    decreases 2 * MAX_PATH - |path|, 3
  {
    hide *;
    outcome, working, rel, q := Pass, previous, [], 0;
    var index := 0;
    KeyedStart(previous, next, path);
    NothingLogged(log.items, path);
    while index < |next|
      invariant 0 <= index <= |next| && index <= |working| && outcome.Pass?
      invariant log.items == old(log.items) + Prefixed(path, rel)
      invariant KeyedSoFar(previous, next, path, index, working, q, rel, outcome)
    {
      ghost var stepRel, taken;
      ghost var before := working;
      outcome, working, stepRel, taken := DiffKeyedRow(working, next[index], index, path, log);
      Logged(old(log.items), path, rel, stepRel);
      KeyedStep(previous, next, path, index, before, q, rel, outcome, working, stepRel, taken);
      rel, q, index := rel + stepRel, q + taken, index + 1;
      if outcome.Fail? { return; }
    }
  }

  /** One row of the keyed branch. `taken` old rows are consumed: none when the row
      is inserted, otherwise the skipped ones and the match. */
  method DiffKeyedRow(working: seq<Json>, row: Json, index: nat, path: Path, log: OperationLog)
    returns (outcome: Outcome<DeltaError>, working': seq<Json>, ghost rel: seq<Operation>, ghost taken: nat)
    requires |path| <= MAX_PATH && index <= |working|
    modifies log
    ensures log.items == old(log.items) + Prefixed(path, rel)
    ensures RowDone(working, row, index, path, outcome, working', rel, taken)
    decreases 2 * MAX_PATH - |path|, 2
  {
    hide *;
    var matching := MatchingRow(working, index, row);
    if matching == |working| {
      var edit := Splice(index, 0, [row]);
      log.items := log.items + [Operation(path, edit)];
      Pushed(old(log.items), path, [], edit);
      outcome, rel, taken := Pass, [Operation([], edit)], 0;
      working' := working[..index] + [row] + working[index..];
      RowInserted(working, row, index, path);
    } else {
      rel, working' := [], working;
      NothingLogged(log.items, path);
      if matching > index {
        var edit := Splice(index, matching - index, []);
        log.items := log.items + [Operation(path, edit)];
        Pushed(old(log.items), path, [], edit);
        rel := [Operation([], edit)];
        working' := working[..index] + working[matching..];
      }
      assert working'[index] == working[matching] && working'[index + 1..] == working[matching + 1..];
      ghost var childRel;
      ghost var skip := rel;
      outcome, childRel := DiffChild(working'[index], row, Index(index), path, log);
      rel, taken := rel + childRel, matching - index + 1;
      Logged(old(log.items), path, skip, childRel);
      RowMatched(working, row, index, path, matching, working', outcome, skip, childRel);
    }
  }

  /** The inner search of the keyed branch. */
  method MatchingRow(working: seq<Json>, index: nat, row: Json) returns (matching: nat)
    requires index <= |working|
    ensures index <= matching <= |working|
    ensures matching < |working| ==> KeyOf(working[matching]) == KeyOf(row)
    ensures forall j :: index <= j < matching ==> KeyOf(working[j]) != KeyOf(row)
  {
    matching := index;
    while matching < |working| && KeyOf(working[matching]) != KeyOf(row)
      invariant index <= matching <= |working|
      invariant forall j :: index <= j < matching ==> KeyOf(working[j]) != KeyOf(row)
    {
      matching := matching + 1;
    }
  }

  /** What handling one row of the keyed branch guarantees. */
  ghost predicate RowDone(working: seq<Json>, row: Json, index: nat, path: Path, outcome: Outcome<DeltaError>,
                          working': seq<Json>, rel: seq<Operation>, taken: nat)
    requires index <= |working|
  {
    match outcome
    case Pass =>
      && index < |working'| && index + taken <= |working|
      && working'[index + 1..] == working[index + taken..]
      && IndicesFit(rel)
      && EditsRow(working, index, row, taken, rel)
      && (taken == 0 ==> InsertedRows(rel) == [row] && !HasKey(working[index..], KeyOf(row)))
      && (taken > 0 ==> InsertedRows(rel) == [] && KeyOf(working[index + taken - 1]) == KeyOf(row))
      && taken == RowTaken(working[index..], row)
      && Spent(rel, path, RowEffort(working[index..], row)) && Room(path, RowEffort(working[index..], row).entered)
    case Fail(error) => error == InvalidPath && !Room(path, RowEffort(working[index..], row).entered)
  }

  /** `rel` puts `row` at `index` in place of the next `taken` old rows. */
  ghost predicate EditsRow(working: seq<Json>, index: nat, row: Json, taken: nat, rel: seq<Operation>)
    requires index + taken <= |working|
  {
    forall kept: seq<Json> {:trigger ApplyEdits(Arr(kept + working[index..]), rel)} :: |kept| == index ==>
      ApplyEdits(Arr(kept + working[index..]), rel) == Ok(Arr(kept + [row] + working[index + taken..]))
  }

  lemma RowInserted(working: seq<Json>, row: Json, index: nat, path: Path)
    requires index <= |working| && |path| <= MAX_PATH
    requires forall j :: index <= j < |working| ==> KeyOf(working[j]) != KeyOf(row)
    ensures RowDone(working, row, index, path, Pass, working[..index] + [row] + working[index..],
                    [Operation([], Splice(index, 0, [row]))], 0)
  {
    var rel := [Operation([], Splice(index, 0, [row]))];
    assert rel[..0] == [];
    FirstKeyIs(working, index, row, |working|);
    assert RowEffort(working[index..], row) == PUSH && RowTaken(working[index..], row) == 0;
    SpentPush(path, rel[0].edit);
    assert IndicesFit(rel) && InsertedRows(rel) == [row];
    forall kept: seq<Json> | |kept| == index
      ensures ApplyEdits(Arr(kept + working[index..]), rel) == Ok(Arr(kept + [row] + working[index + 0..]))
    {
      SingleEdit(Arr(kept + working[index..]), rel[0]);
    }
    hide Spent, KeyOf;
  }

  /** The search of the loop finds the first row with the key. */
  lemma FirstKeyIs(working: seq<Json>, index: nat, row: Json, matching: nat)
    requires index <= matching <= |working|
    requires matching < |working| ==> KeyOf(working[matching]) == KeyOf(row)
    requires forall j :: index <= j < matching ==> KeyOf(working[j]) != KeyOf(row)
    ensures FirstKey(working[index..], KeyOf(row)) == matching - index
  {
    var rest := working[index..];
    var m := FirstKey(rest, KeyOf(row));
    assert m < |rest| ==> rest[m] == working[index + m];
    assert matching < |working| ==> rest[matching - index] == working[matching];
    hide KeyOf;
  }

  lemma RowMatched(working: seq<Json>, row: Json, index: nat, path: Path, matching: nat, working': seq<Json>,
                   outcome: Outcome<DeltaError>, skip: seq<Operation>, childRel: seq<Operation>)
    requires index <= matching < |working| && |path| <= MAX_PATH && KeyOf(working[matching]) == KeyOf(row)
    requires index < |working'| && working'[index + 1..] == working[matching + 1..]
    requires skip == if matching > index then [Operation([], Splice(index, matching - index, []))] else []
    requires forall j :: index <= j < matching ==> KeyOf(working[j]) != KeyOf(row)
    requires ChildDone(working[matching], row, Index(index), path, outcome, childRel)
    ensures RowDone(working, row, index, path, outcome, working', skip + childRel, matching - index + 1)
  {
    hide EffortOf, Spent, EditsRow, EditsChild, KeyOf, Room, Below, Both, RowEffort, RowTaken, InsertedRows, IndicesFit,
      PathsFit, HasKey, ApplyEdits, FirstKey;
    MatchedEffort(working, index, row, matching);
    RowSpent(path, matching - index, skip, childRel, outcome, Below(EffortOf(working[matching], row)));
    if outcome.Pass? {
      SkipInsertsNothing(skip, childRel);
      MatchEdits(working, index, matching, row, skip, childRel);
      SkipFits(skip);
      FitConcat(skip, childRel, path);
    }
  }

  lemma SkipFits(skip: seq<Operation>)
    requires |skip| <= 1 && (skip != [] ==> skip[0].path == [])
    ensures IndicesFit(skip)
  {
  }

  lemma MatchedEffort(working: seq<Json>, index: nat, row: Json, matching: nat)
    requires index <= matching < |working| && KeyOf(working[matching]) == KeyOf(row)
    requires forall j :: index <= j < matching ==> KeyOf(working[j]) != KeyOf(row)
    ensures RowTaken(working[index..], row) == matching - index + 1
    ensures RowEffort(working[index..], row)
         == Both(if matching > index then PUSH else NOTHING, Below(EffortOf(working[matching], row)))
  {
    FirstKeyIs(working, index, row, matching);
    assert |working[index..]| == |working| - index && working[index..][matching - index] == working[matching];
    hide EffortOf, KeyOf, FirstKey, Both, Below;
  }

  lemma RowSpent(path: Path, skipped: nat, skip: seq<Operation>, childRel: seq<Operation>, outcome: Outcome<DeltaError>,
                 child: Effort)
    requires |skip| == (if skipped > 0 then 1 else 0) && (skip != [] ==> skip[0].path == [])
    requires outcome.Pass? ==> Spent(childRel, path, child) && Room(path, child.entered)
    requires outcome.Fail? ==> !Room(path, child.entered)
    ensures var e := Both(if skipped > 0 then PUSH else NOTHING, child);
            && (outcome.Pass? ==> Spent(skip + childRel, path, e) && Room(path, e.entered))
            && (outcome.Fail? ==> !Room(path, e.entered))
  {
    FitConcat(skip, childRel, path);
  }

  lemma SkipInsertsNothing(skip: seq<Operation>, childRel: seq<Operation>)
    requires |skip| <= 1 && InsertedRows(childRel) == []
    requires |skip| == 1 ==> skip[0].edit.Splice? && skip[0].edit.values == []
    ensures InsertedRows(skip + childRel) == []
  {
    InsertedRowsConcat(skip, childRel);
    if |skip| == 1 { assert skip[..0] == []; }
  }

  lemma SkipEdits(working: seq<Json>, index: nat, matching: nat, kept: seq<Json>)
    requires index <= matching <= |working| && |kept| == index
    ensures ApplyEdits(Arr(kept + working[index..]), [Operation([], Splice(index, matching - index, []))])
         == Ok(Arr(kept + working[matching..]))
  {
    var rows := kept + working[index..];
    SingleEdit(Arr(rows), Operation([], Splice(index, matching - index, [])));
    assert rows[..index] + [] + rows[matching..] == kept + working[matching..];
  }

  lemma MatchEdits(working: seq<Json>, index: nat, matching: nat, row: Json, skip: seq<Operation>,
                   childRel: seq<Operation>)
    requires index <= matching < |working|
    requires skip == if matching > index then [Operation([], Splice(index, matching - index, []))] else []
    requires EditsChild(working[matching], row, Index(index), childRel)
    ensures EditsRow(working, index, row, matching - index + 1, skip + childRel)
  {
    forall kept: seq<Json> | |kept| == index
      ensures ApplyEdits(Arr(kept + working[index..]), skip + childRel)
           == Ok(Arr(kept + [row] + working[index + (matching - index + 1)..]))
    {
      MatchEditsBehind(working, index, matching, row, skip, childRel, kept);
    }
    hide ApplyEdits, EditsChild;
  }

  lemma MatchEditsBehind(working: seq<Json>, index: nat, matching: nat, row: Json, skip: seq<Operation>,
                         childRel: seq<Operation>, kept: seq<Json>)
    requires index <= matching < |working| && |kept| == index
    requires skip == if matching > index then [Operation([], Splice(index, matching - index, []))] else []
    requires EditsChild(working[matching], row, Index(index), childRel)
    ensures ApplyEdits(Arr(kept + working[index..]), skip + childRel) == Ok(Arr(kept + [row] + working[matching + 1..]))
  {
    var rows := kept + working[matching..];
    assert rows[index] == working[matching];
    assert Child(Arr(rows), Index(index)) == working[matching];
    assert rows[index := row] == kept + [row] + working[matching + 1..];
    assert ApplyEdits(Arr(rows), childRel) == Ok(Arr(rows[index := row]));
    if matching > index { SkipEdits(working, index, matching, kept); }
    assert ApplyEdits(Arr(kept + working[index..]), skip) == Ok(Arr(rows));
    hide ApplyEdits, EditsChild;
    ApplyEditsConcat(Arr(kept + working[index..]), skip, childRel);
  }

  /** The keyed branch after `index` rows: the operations have produced the first
      `index` new rows, followed by what is left of the old ones, those from `q` on. */
  ghost predicate KeyedSoFar(previous: seq<Json>, next: seq<Json>, path: Path, index: nat, working: seq<Json>,
                             q: nat, rel: seq<Operation>, outcome: Outcome<DeltaError>)
  {
    match outcome
    case Pass =>
      && index <= |next| && index <= |working|
      && q <= |previous| && working[index..] == previous[q..]
      && IndicesFit(rel)
      && ApplyEdits(Arr(previous), rel) == Ok(Arr(next[..index] + working[index..]))
      && SpentSoFar(rel, path, KeyedEffort(previous[q..], Arr(next), index), KeyedEffort(previous, Arr(next), 0))
      && OnlyNewRows(previous, next, index, q, rel)
    case Fail(error) => error == InvalidPath && !Room(path, KeyedEffort(previous, Arr(next), 0).entered)
  }

  /** What the keyed branch has sent in full after `index` rows. */
  ghost predicate OnlyNewRows(previous: seq<Json>, next: seq<Json>, index: nat, q: nat, rel: seq<Operation>)
    requires index <= |next| && q <= |previous|
  {
    && (q > 0 ==> HasKey(next[..index], KeyOf(previous[q - 1])))
    && (OrderPreserved(previous, next) ==> InsertedRows(rel) == NewRows(previous, next[..index]))
  }

  lemma KeyedStart(previous: seq<Json>, next: seq<Json>, path: Path)
    ensures KeyedSoFar(previous, next, path, 0, previous, 0, [], Pass)
  {
    assert next[..0] + previous[0..] == previous;
    SpentStart(path, KeyedEffort(previous, Arr(next), 0));
    assert previous[0..] == previous;
  }

  lemma KeyedStep(previous: seq<Json>, next: seq<Json>, path: Path, index: nat, working: seq<Json>, q: nat,
                  rel: seq<Operation>, outcome: Outcome<DeltaError>, working': seq<Json>,
                  stepRel: seq<Operation>, taken: nat)
    requires index < |next| && index <= |working| && |path| <= MAX_PATH
    requires KeyedSoFar(previous, next, path, index, working, q, rel, Pass)
    requires RowDone(working, next[index], index, path, outcome, working', stepRel, taken)
    ensures KeyedSoFar(previous, next, path, index + 1, working', q + taken, rel + stepRel, outcome)
    ensures outcome.Pass? ==> index + 1 <= |working'|
    ensures outcome.Fail? ==> KeyedSoFar(previous, next, path, |next|, working', q + taken, rel + stepRel, outcome)
  {
    hide KeyedEffort, RowEffort, RowTaken, Spent, SpentSoFar, Room, Both;
    hide IndicesFit, PathsFit, HasKey, OnlyNewRows, ApplyEdits, InsertedRows, KeyOf;
    SameTail(working, index, if outcome.Pass? then taken else 0, previous, q);
    KeyedSpent(previous, next, path, index, q, rel, stepRel, outcome);
    FitConcat(rel, stepRel, path);
    if outcome.Pass? {
      EditsRowStep(previous, next, index, working, rel, stepRel, taken);
      TakenKey(previous, next, index, working, q, taken);
      OnlyNewRowsStep(previous, next, index, q, rel, stepRel, taken);
    }
    hide EditsRow;
  }

  lemma KeyedEnd(rest: seq<Json>, next: seq<Json>)
    ensures KeyedEffort(rest, Arr(next), |next|) == if rest != [] then Both(PUSH, NOTHING) else NOTHING
  {
  }

  /** The effort of one more row. */
  lemma KeyedSpent(previous: seq<Json>, next: seq<Json>, path: Path, index: nat, q: nat, rel: seq<Operation>,
                   stepRel: seq<Operation>, outcome: Outcome<DeltaError>)
    requires index < |next| && q <= |previous|
    requires SpentSoFar(rel, path, KeyedEffort(previous[q..], Arr(next), index), KeyedEffort(previous, Arr(next), 0))
    requires var e := RowEffort(previous[q..], next[index]);
             && (outcome.Pass? ==> Spent(stepRel, path, e) && Room(path, e.entered))
             && (outcome.Fail? ==> !Room(path, e.entered))
    ensures outcome.Pass? ==>
              var q' := q + RowTaken(previous[q..], next[index]);
              q' <= |previous| && SpentSoFar(rel + stepRel, path, KeyedEffort(previous[q'..], Arr(next), index + 1),
                                             KeyedEffort(previous, Arr(next), 0))
    ensures outcome.Fail? ==> !Room(path, KeyedEffort(previous, Arr(next), 0).entered)
  {
    hide *;
    var rest, row := previous[q..], next[index];
    var taken, total := RowTaken(rest, row), KeyedEffort(previous, Arr(next), 0);
    assert rest[taken..] == previous[q + taken..];
    var later := KeyedEffort(previous[q + taken..], Arr(next), index + 1);
    KeyedUnfolds(rest, Arr(next), index);
    if outcome.Pass? {
      SpentStep(rel, stepRel, path, RowEffort(rest, row), later, total);
    } else {
      SpentFails(rel, path, RowEffort(rest, row), later, total);
    }
  }

  lemma TakenKey(previous: seq<Json>, next: seq<Json>, index: nat, working: seq<Json>, q: nat, taken: nat)
    requires index < |next| && index + taken <= |working| && q <= |previous| && working[index..] == previous[q..]
    requires |working| - index == |previous| - q
    requires forall j :: index <= j < |working| ==> working[j] == previous[q + j - index]
    ensures HasKey(working[index..], KeyOf(next[index])) == HasKey(previous[q..], KeyOf(next[index]))
    ensures taken > 0 ==> working[index + taken - 1] == previous[q + taken - 1]
  {
    hide HasKey, KeyOf;
  }

  lemma EditsRowStep(previous: seq<Json>, next: seq<Json>, index: nat, working: seq<Json>,
                     rel: seq<Operation>, stepRel: seq<Operation>, taken: nat)
    requires index < |next| && index + taken <= |working|
    requires ApplyEdits(Arr(previous), rel) == Ok(Arr(next[..index] + working[index..]))
    requires EditsRow(working, index, next[index], taken, stepRel)
    ensures ApplyEdits(Arr(previous), rel + stepRel) == Ok(Arr(next[..index + 1] + working[index + taken..]))
  {
    ApplyEditsConcat(Arr(previous), rel, stepRel);
    assert next[..index] + [next[index]] == next[..index + 1];
  }

  lemma SameTail(working: seq<Json>, index: nat, taken: nat, previous: seq<Json>, q: nat)
    requires index + taken <= |working| && q <= |previous| && working[index..] == previous[q..]
    ensures |working| - index == |previous| - q
    ensures forall j :: index <= j < |working| ==> working[j] == previous[q + j - index]
    ensures working[index + taken..] == previous[q + taken..]
  {
    assert |working[index..]| == |previous[q..]|;
    forall j | index <= j < |working|
      ensures working[j] == previous[q + j - index]
    {
      assert working[j] == working[index..][j - index];
    }
  }

  lemma OnlyNewRowsStep(previous: seq<Json>, next: seq<Json>, index: nat, q: nat, rel: seq<Operation>,
                        stepRel: seq<Operation>, taken: nat)
    requires index < |next| && q + taken <= |previous|
    requires OnlyNewRows(previous, next, index, q, rel)
    requires taken == 0 ==> InsertedRows(stepRel) == [next[index]] && !HasKey(previous[q..], KeyOf(next[index]))
    requires taken > 0 ==> InsertedRows(stepRel) == [] && KeyOf(previous[q + taken - 1]) == KeyOf(next[index])
    ensures OnlyNewRows(previous, next, index + 1, q + taken, rel + stepRel)
  {
    hide HasKey, OrderPreserved, NewRows, InsertedRows, KeyOf;
    InsertedRowsConcat(rel, stepRel);
    NewRowsStep(previous, next, index);
    if taken == 0 {
      if q > 0 { KeyKept(next, index, KeyOf(previous[q - 1])); }
      RowsAhead(previous, q, KeyOf(next[index]));
      KeptBehind(previous, next, index, q);
    } else {
      FoundRow(previous, next, index, q + taken - 1);
    }
  }

  lemma NewRowsStep(previous: seq<Json>, next: seq<Json>, index: nat)
    requires index < |next|
    ensures NewRows(previous, next[..index + 1]) ==
            NewRows(previous, next[..index]) + if HasKey(previous, KeyOf(next[index])) then [] else [next[index]]
  {
    var longer := next[..index + 1];
    assert longer[..index] == next[..index] && longer[index] == next[index];
    hide HasKey, KeyOf;
  }

  lemma RowsAhead(previous: seq<Json>, q: nat, key: Option<RowKey>)
    requires q <= |previous| && !HasKey(previous[q..], key)
    ensures forall p :: q <= p < |previous| ==> KeyOf(previous[p]) != key
  {
    hide KeyOf;
    assert forall p :: q <= p < |previous| ==> previous[p] == previous[q..][p - q];
  }

  lemma FoundRow(previous: seq<Json>, next: seq<Json>, index: nat, p: nat)
    requires index < |next| && p < |previous| && KeyOf(previous[p]) == KeyOf(next[index])
    ensures HasKey(next[..index + 1], KeyOf(previous[p])) && HasKey(previous, KeyOf(next[index]))
  {
    hide KeyOf;
    assert next[..index + 1][index] == next[index];
  }

  lemma KeyKept(rows: seq<Json>, index: nat, key: Option<RowKey>)
    requires index < |rows| && HasKey(rows[..index], key)
    ensures HasKey(rows[..index + 1], key)
  {
    var i :| 0 <= i < index && KeyOf(rows[..index][i]) == key;
    assert rows[..index + 1][i] == rows[..index][i];
  }

  /** With the order kept, a row that is not found ahead is not in `previous` at all. */
  lemma KeptBehind(previous: seq<Json>, next: seq<Json>, index: nat, q: nat)
    requires index < |next| && q <= |previous|
    requires q > 0 ==> HasKey(next[..index], KeyOf(previous[q - 1]))
    requires forall p :: q <= p < |previous| ==> KeyOf(previous[p]) != KeyOf(next[index])
    ensures OrderPreserved(previous, next) ==> !HasKey(previous, KeyOf(next[index]))
  {
    if q > 0 {
      var i :| 0 <= i < index && KeyOf(next[..index][i]) == KeyOf(previous[q - 1]);
      assert next[..index][i] == next[i];
      assert OrderPreserved(previous, next) ==> KeysInOrder(previous, KeyOf(next[i]), KeyOf(next[index]));
    }
  }

  lemma KeyedTail(previous: seq<Json>, next: seq<Json>, path: Path, working: seq<Json>, q: nat, rel: seq<Operation>)
    requires |next| < |working| && |path| <= MAX_PATH && Keyed(previous) && Keyed(next)
    requires KeyedSoFar(previous, next, path, |next|, working, q, rel, Pass)
    ensures var ops := rel + [Operation([], Splice(|next|, |working| - |next|, []))];
            Diffed(Arr(previous), Arr(next), path, ops, Pass)
            && (OrderPreserved(previous, next) ==> InsertedRows(ops) == NewRows(previous, next))
  {
    SameTail(working, |next|, 0, previous, q);
    TailEdits(previous, next, path, working, q, rel);
    var last := Operation([], Splice(|next|, |working| - |next|, []));
    assert (rel + [last])[..|rel|] == rel && next[..|next|] == next;
    hide HasKey, OrderPreserved, NewRows, KeyOf, ApplyEdits, IndicesFit, PathsFit, Diffed, Keyed, SpentSoFar, Spent;
  }

  lemma TailEdits(previous: seq<Json>, next: seq<Json>, path: Path, working: seq<Json>, q: nat, rel: seq<Operation>)
    requires |next| < |working| && |path| <= MAX_PATH && q <= |previous| && |working| - |next| == |previous| - q
    requires Keyed(previous) && Keyed(next) && KeyedSoFar(previous, next, path, |next|, working, q, rel, Pass)
    ensures Diffed(Arr(previous), Arr(next), path, rel + [Operation([], Splice(|next|, |working| - |next|, []))], Pass)
  {
    hide OnlyNewRows, OrderPreserved, InsertedRows, Keyed, EffortOf, KeyedEffort, Spent, SpentSoFar, Both, Room;
    var last := Operation([], Splice(|next|, |working| - |next|, []));
    TailCut(previous, next, working, rel);
    FitConcat(rel, [last], path);
    assert IndicesFit([last]);
    hide ApplyEdits, IndicesFit, PathsFit;
    var total := KeyedEffort(previous, Arr(next), 0);
    KeyedEnd(previous[q..], next);
    SpentPush(path, last.edit);
    SpentStep(rel, [last], path, PUSH, NOTHING, total);
    KeyedTotal(previous, next);
    Entering(rel + [last], path, total);
  }

  lemma TailCut(previous: seq<Json>, next: seq<Json>, working: seq<Json>, rel: seq<Operation>)
    requires |next| < |working|
    requires ApplyEdits(Arr(previous), rel) == Ok(Arr(next[..|next|] + working[|next|..]))
    ensures ApplyEdits(Arr(previous), rel + [Operation([], Splice(|next|, |working| - |next|, []))]) == Ok(Arr(next))
  {
    var last := Operation([], Splice(|next|, |working| - |next|, []));
    var rows := next[..|next|] + working[|next|..];
    AppendEdit(Arr(previous), rel, Arr(rows), last);
    assert rows[..|next|] + [] + rows[|working|..] == next;
  }

  lemma KeyedDone(previous: seq<Json>, next: seq<Json>, path: Path, working: seq<Json>, q: nat, rel: seq<Operation>)
    requires |working| <= |next| && |path| <= MAX_PATH && Keyed(previous) && Keyed(next)
    requires KeyedSoFar(previous, next, path, |next|, working, q, rel, Pass)
    ensures Diffed(Arr(previous), Arr(next), path, rel, Pass)
    ensures OrderPreserved(previous, next) ==> InsertedRows(rel) == NewRows(previous, next)
  {
    hide Keyed, EffortOf, Spent, SpentSoFar;
    assert next[..|next|] + working[|next|..] == next && next[..|next|] == next;
    assert |previous[q..]| == |working[|next|..]| == 0;
    KeyedTotal(previous, next);
    Entering(rel, path, KeyedEffort(previous, Arr(next), 0));
  }

  lemma KeyedFailed(previous: seq<Json>, next: seq<Json>, path: Path, working: seq<Json>, q: nat, rel: seq<Operation>,
                    outcome: Outcome<DeltaError>)
    requires outcome.Fail? && KeyedSoFar(previous, next, path, |next|, working, q, rel, outcome)
    requires Keyed(previous) && Keyed(next)
    ensures Diffed(Arr(previous), Arr(next), path, rel, outcome)
  {
    KeyedTotal(previous, next);
    hide Keyed, EffortOf, KeyedEffort;
  }

  lemma KeyedTotal(previous: seq<Json>, next: seq<Json>)
    requires Keyed(previous) && Keyed(next)
    ensures EffortOf(Arr(previous), Arr(next)) == Both(ENTER, KeyedEffort(previous, Arr(next), 0))
  {
    hide Keyed, KeyedEffort;
  }

  /** All is spent, the level of the value itself included. */
  lemma Entering(ops: seq<Operation>, path: Path, total: Effort)
    requires |path| <= MAX_PATH && SpentSoFar(ops, path, NOTHING, total)
    ensures Spent(ops, path, Both(ENTER, total)) && Room(path, Both(ENTER, total).entered)
  {
    RoomBoth(path, ENTER, total);
    assert Room(path, ENTER.entered) && Room(path, ENTER.touched);
    assert Room(path, NOTHING.entered) && Room(path, NOTHING.touched);
    hide PathsFit, Both, Room;
  }

  /** The positional branch, taken when either side has rows without a unique key. */
  method DiffPlainRows(previous: seq<Json>, next: seq<Json>, path: Path, log: OperationLog)
    returns (outcome: Outcome<DeltaError>, ghost rel: seq<Operation>)
    requires |path| <= MAX_PATH && !(Keyed(previous) && Keyed(next))
    modifies log
    ensures log.items == old(log.items) + Prefixed(path, rel)
    ensures Diffed(Arr(previous), Arr(next), path, rel, outcome)
    decreases 2 * MAX_PATH - |path|, 3
  {
    outcome, rel := Pass, [];
    var common := if |previous| < |next| then |previous| else |next|;
    NothingLogged(log.items, path);
    PlainStart(previous, next, path);
    hide ApplyEdits, PathsFit, IndicesFit, Prefixed, ChildDone, PlainSoFar, Diffed, Keyed, EffortOf, PlainEffort;
    for index := 0 to common
      invariant log.items == old(log.items) + Prefixed(path, rel)
      invariant outcome.Pass? && PlainSoFar(previous, next, path, index, rel, outcome)
    {
      ghost var stepRel;
      outcome, stepRel := DiffChild(previous[index], next[index], Index(index), path, log);
      Logged(old(log.items), path, rel, stepRel);
      PlainStep(previous, next, path, index, rel, outcome, stepRel);
      rel := rel + stepRel;
      if outcome.Fail? {
        PlainFailed(previous, next, path, index + 1, rel, outcome);
        return;
      }
    }
    if |previous| != |next| {
      var edit := Splice(common, |previous| - common, next[common..]);
      log.items := log.items + [Operation(path, edit)];
      Pushed(old(log.items), path, rel, edit);
      PlainTail(previous, next, path, common, rel);
      rel := rel + [Operation([], edit)];
    } else {
      PlainDone(previous, next, path, rel);
    }
  }

  lemma PlainStart(previous: seq<Json>, next: seq<Json>, path: Path)
    ensures PlainSoFar(previous, next, path, 0, [], Pass)
  {
    assert next[..0] + previous[0..] == previous;
    SpentStart(path, PlainEffort(Arr(previous), Arr(next), 0));
  }

  lemma PlainFailed(previous: seq<Json>, next: seq<Json>, path: Path, index: nat, rel: seq<Operation>,
                    outcome: Outcome<DeltaError>)
    requires index <= |next| && index <= |previous| && outcome.Fail? && !(Keyed(previous) && Keyed(next))
    requires PlainSoFar(previous, next, path, index, rel, outcome)
    ensures Diffed(Arr(previous), Arr(next), path, rel, outcome)
  {
    PlainTotal(previous, next);
    hide Keyed, EffortOf, PlainEffort;
  }

  lemma PlainTotal(previous: seq<Json>, next: seq<Json>)
    requires !(Keyed(previous) && Keyed(next))
    ensures EffortOf(Arr(previous), Arr(next)) == Both(ENTER, PlainEffort(Arr(previous), Arr(next), 0))
  {
    hide Keyed, PlainEffort;
  }

  lemma PlainDone(previous: seq<Json>, next: seq<Json>, path: Path, rel: seq<Operation>)
    requires |path| <= MAX_PATH && !(Keyed(previous) && Keyed(next))
    requires |previous| == |next| && PlainSoFar(previous, next, path, |next|, rel, Pass)
    ensures Diffed(Arr(previous), Arr(next), path, rel, Pass)
  {
    hide Keyed, EffortOf, Spent, SpentSoFar;
    assert next[..|next|] + previous[|next|..] == next;
    PlainTotal(previous, next);
    Entering(rel, path, PlainEffort(Arr(previous), Arr(next), 0));
  }

  /** The positional branch after `index` rows. */
  ghost predicate PlainSoFar(previous: seq<Json>, next: seq<Json>, path: Path, index: nat,
                             rel: seq<Operation>, outcome: Outcome<DeltaError>)
    requires index <= |next| && index <= |previous|
  {
    match outcome
    case Pass =>
      && IndicesFit(rel)
      && ApplyEdits(Arr(previous), rel) == Ok(Arr(next[..index] + previous[index..]))
      && SpentSoFar(rel, path, PlainEffort(Arr(previous), Arr(next), index), PlainEffort(Arr(previous), Arr(next), 0))
    case Fail(error) => error == InvalidPath && !Room(path, PlainEffort(Arr(previous), Arr(next), 0).entered)
  }

  lemma PlainStep(previous: seq<Json>, next: seq<Json>, path: Path, index: nat, rel: seq<Operation>,
                  outcome: Outcome<DeltaError>, stepRel: seq<Operation>)
    requires index < |next| && index < |previous| && |path| <= MAX_PATH
    requires PlainSoFar(previous, next, path, index, rel, Pass)
    requires ChildDone(previous[index], next[index], Index(index), path, outcome, stepRel)
    ensures PlainSoFar(previous, next, path, index + 1, rel + stepRel, outcome)
  {
    hide EffortOf, PlainEffort, Spent, SpentSoFar, Below, Room, ApplyEdits, InsertedRows;
    var step := Below(EffortOf(previous[index], next[index]));
    var later := PlainEffort(Arr(previous), Arr(next), index + 1);
    PlainUnfolds(Arr(previous), Arr(next), index);
    if outcome.Pass? {
      SpentStep(rel, stepRel, path, step, later, PlainEffort(Arr(previous), Arr(next), 0));
      FitConcat(rel, stepRel, path);
      var rows := next[..index] + previous[index..];
      ApplyEditsConcat(Arr(previous), rel, stepRel);
      assert Child(Arr(rows), Index(index)) == previous[index];
      assert rows[index := next[index]] == next[..index + 1] + previous[index + 1..];
      hide PathsFit, IndicesFit;
    } else {
      SpentFails(rel, path, step, later, PlainEffort(Arr(previous), Arr(next), 0));
    }
  }

  lemma PlainTail(previous: seq<Json>, next: seq<Json>, path: Path, common: nat, rel: seq<Operation>)
    requires common <= |next| && common <= |previous| && (common == |next| || common == |previous|)
    requires |path| <= MAX_PATH && |previous| != |next| && !(Keyed(previous) && Keyed(next))
    requires PlainSoFar(previous, next, path, common, rel, Pass)
    ensures Diffed(Arr(previous), Arr(next), path,
                   rel + [Operation([], Splice(common, |previous| - common, next[common..]))], Pass)
  {
    hide Keyed, EffortOf, Spent, SpentSoFar;
    var rows := next[..common] + previous[common..];
    var last := Operation([], Splice(common, |previous| - common, next[common..]));
    AppendEdit(Arr(previous), rel, Arr(rows), last);
    assert rows[..common] + next[common..] + rows[|previous|..] == next;
    FitConcat(rel, [last], path);
    assert IndicesFit([last]);
    var total := PlainEffort(Arr(previous), Arr(next), 0);
    assert PlainEffort(Arr(previous), Arr(next), common) == Both(PUSH, NOTHING);
    SpentPush(path, last.edit);
    SpentStep(rel, [last], path, PUSH, NOTHING, total);
    PlainTotal(previous, next);
    Entering(rel + [last], path, total);
  }

  /** Deletes the keys that are gone, then edits or adds the others; the keys may
      be visited in any order. */
  method DiffRecord(previous: map<string, Json>, next: map<string, Json>, path: Path, log: OperationLog)
    returns (outcome: Outcome<DeltaError>, ghost rel: seq<Operation>)
    requires |path| <= MAX_PATH
    modifies log
    ensures log.items == old(log.items) + Prefixed(path, rel)
    ensures Diffed(Obj(previous), Obj(next), path, rel, outcome)
    decreases 2 * MAX_PATH - |path|, 3
  {
    hide *;
    rel := DeleteMissing(previous, next, path, log);
    outcome := Pass;
    ghost var current := previous - (previous.Keys - next.Keys);
    var pending := next.Keys;
    RecordStart(previous, next, path, rel);
    while pending != {}
      invariant log.items == old(log.items) + Prefixed(path, rel)
      invariant outcome.Pass? && RecordSoFar(previous, next, path, pending, current, rel)
      invariant pending <= next.Keys
      decreases pending
    {
      var key :| key in pending;
      ghost var stepRel;
      outcome, stepRel := DiffField(previous, next, key, path, log);
      Logged(old(log.items), path, rel, stepRel);
      FieldSpent(previous, next, path, pending, current, key, rel, stepRel, outcome);
      if outcome.Pass? { FieldEdits(previous, next, path, pending, current, key, rel, stepRel); }
      rel := rel + stepRel;
      if outcome.Fail? { return; }
      current := current[key := next[key]];
      pending := pending - {key};
    }
    RecordDone(previous, next, path, current, rel);
  }

  /** The second loop over a record, with the keys `pending` still to come. */
  ghost predicate RecordSoFar(previous: map<string, Json>, next: map<string, Json>, path: Path, pending: set<string>,
                              current: map<string, Json>, rel: seq<Operation>) {
    && pending <= next.Keys && IndicesFit(rel) && ApplyEdits(Obj(previous), rel) == Ok(Obj(current))
    && SpentSoFar(rel, path, FieldsEffort(Obj(previous), Obj(next), pending), RecordTotal(previous, next))
    && FieldsSoFar(previous, next, pending, current)
  }

  ghost predicate FieldsSoFar(previous: map<string, Json>, next: map<string, Json>, pending: set<string>,
                              current: map<string, Json>) {
    && current.Keys <= next.Keys
    && (forall k :: k in pending ==> (k in current <==> k in previous) && (k in current ==> current[k] == previous[k]))
    && (forall k :: k in next && k !in pending ==> k in current && current[k] == next[k])
  }

  ghost function RecordTotal(previous: map<string, Json>, next: map<string, Json>): Effort {
    Both(Deletions(previous.Keys - next.Keys), FieldsEffort(Obj(previous), Obj(next), next.Keys))
  }

  lemma RecordStart(previous: map<string, Json>, next: map<string, Json>, path: Path, rel: seq<Operation>)
    requires Deleted(previous, previous.Keys - next.Keys, rel)
    ensures RecordSoFar(previous, next, path, next.Keys, previous - (previous.Keys - next.Keys), rel)
  {
    hide FieldsEffort, PathsFit, IndicesFit, Both, Deletions, Room, ApplyEdits, FieldsSoFar;
    FieldsStart(previous, next);
    var gone := Deletions(previous.Keys - next.Keys);
    var fields := FieldsEffort(Obj(previous), Obj(next), next.Keys);
    DeletionsSpent(rel, path, previous.Keys - next.Keys);
    RoomBoth(path, gone, fields);
  }

  lemma FieldsStart(previous: map<string, Json>, next: map<string, Json>)
    ensures FieldsSoFar(previous, next, next.Keys, previous - (previous.Keys - next.Keys))
  {
  }

  lemma DeletionsSpent(rel: seq<Operation>, path: Path, gone: set<string>)
    requires forall i :: 0 <= i < |rel| ==> |rel[i].path| == 1 && rel[i].path[0].Name?
    requires |rel| == |gone|
    ensures IndicesFit(rel) && Spent(rel, path, Deletions(gone)) && Room(path, Deletions(gone).entered)
  {
    assert rel != [] ==> (PathsFit(rel, path) <==> |path| + |rel[0].path| <= MAX_PATH);
    hide PathsFit, IndicesFit;
  }

  lemma FieldEdits(previous: map<string, Json>, next: map<string, Json>, path: Path, pending: set<string>,
                   current: map<string, Json>, key: string, rel: seq<Operation>, stepRel: seq<Operation>)
    requires RecordSoFar(previous, next, path, pending, current, rel) && key in pending && IndicesFit(stepRel)
    requires EditsField(previous, next, key, stepRel)
    requires SpentSoFar(rel + stepRel, path, FieldsEffort(Obj(previous), Obj(next), pending - {key}),
                        RecordTotal(previous, next))
    ensures RecordSoFar(previous, next, path, pending - {key}, current[key := next[key]], rel + stepRel)
  {
    hide FieldsEffort, SpentSoFar, RecordTotal, IndicesFit, PathsFit, ApplyEdits;
    ApplyEditsConcat(Obj(previous), rel, stepRel);
    assert ApplyEdits(Obj(current), stepRel) == Ok(Obj(current[key := next[key]]));
    FitConcat(rel, stepRel, path);
  }

  lemma RecordDone(previous: map<string, Json>, next: map<string, Json>, path: Path, current: map<string, Json>,
                   rel: seq<Operation>)
    requires |path| <= MAX_PATH && RecordSoFar(previous, next, path, {}, current, rel)
    ensures Diffed(Obj(previous), Obj(next), path, rel, Pass)
  {
    assert current == next;
    assert FieldsEffort(Obj(previous), Obj(next), {}) == NOTHING;
    RecordEffort(Obj(previous), Obj(next));
    hide EffortOf, FieldsEffort, Spent, SpentSoFar, ApplyEdits, IndicesFit, Room, FieldsSoFar;
    Entering(rel, path, RecordTotal(previous, next));
  }

  /** The effort of one more key. */
  lemma FieldSpent(previous: map<string, Json>, next: map<string, Json>, path: Path, pending: set<string>,
                   current: map<string, Json>, key: string, rel: seq<Operation>, stepRel: seq<Operation>,
                   outcome: Outcome<DeltaError>)
    requires key in pending && RecordSoFar(previous, next, path, pending, current, rel)
    requires FieldDone(previous, next, key, path, outcome, stepRel)
    ensures outcome.Pass? ==>
              SpentSoFar(rel + stepRel, path, FieldsEffort(Obj(previous), Obj(next), pending - {key}),
                         RecordTotal(previous, next))
    ensures outcome.Pass? ==> IndicesFit(stepRel) && EditsField(previous, next, key, stepRel)
    ensures outcome.Fail? ==> Diffed(Obj(previous), Obj(next), path, rel + stepRel, outcome)
  {
    hide FieldEffort, FieldsEffort, RecordTotal, Spent, SpentSoFar, EffortOf, ApplyEdits, IndicesFit, FieldsSoFar, Room;
    FieldsPick(Obj(previous), Obj(next), pending, key);
    var e, later := FieldEffort(Obj(previous), Obj(next), key), FieldsEffort(Obj(previous), Obj(next), pending - {key});
    if outcome.Pass? {
      SpentStep(rel, stepRel, path, e, later, RecordTotal(previous, next));
    } else {
      SpentFails(rel, path, e, later, RecordTotal(previous, next));
      RecordFailed(previous, next, path);
    }
  }

  lemma RecordFailed(previous: map<string, Json>, next: map<string, Json>, path: Path)
    requires !Room(path, RecordTotal(previous, next).entered)
    ensures !Room(path, EffortOf(Obj(previous), Obj(next)).entered)
  {
    RecordEffort(Obj(previous), Obj(next));
    RoomBoth(path, ENTER, RecordTotal(previous, next));
    hide EffortOf, FieldsEffort, Room, Both;
  }

  /** What handling one key guarantees. */
  ghost predicate FieldDone(previous: map<string, Json>, next: map<string, Json>, key: string, path: Path,
                            outcome: Outcome<DeltaError>, rel: seq<Operation>)
    requires key in next
  {
    var e := FieldEffort(Obj(previous), Obj(next), key);
    match outcome
    case Pass => IndicesFit(rel) && EditsField(previous, next, key, rel) && Spent(rel, path, e) && Room(path, e.entered)
    case Fail(error) => error == InvalidPath && !Room(path, e.entered)
  }

  /** In any record that has the old field at `key`, or lacks it like the old one, `rel` puts
      the new field there. */
  ghost predicate EditsField(previous: map<string, Json>, next: map<string, Json>, key: string, rel: seq<Operation>)
    requires key in next
  {
    forall fields: map<string, Json> {:trigger ApplyEdits(Obj(fields), rel)} ::
      (key in fields <==> key in previous) && (key in fields ==> fields[key] == previous[key])
      ==> ApplyEdits(Obj(fields), rel) == Ok(Obj(fields[key := next[key]]))
  }

  /** The first loop over a record: one `delete` for every key that is gone. */
  method DeleteMissing(previous: map<string, Json>, next: map<string, Json>, path: Path, log: OperationLog)
    returns (ghost rel: seq<Operation>)
    modifies log
    ensures log.items == old(log.items) + Prefixed(path, rel)
    ensures Deleted(previous, previous.Keys - next.Keys, rel)
  {
    hide *;
    rel := [];
    var pending := previous.Keys;
    GoneStart(previous, next.Keys);
    NothingLogged(log.items, path);
    while pending != {}
      invariant log.items == old(log.items) + Prefixed(path, rel)
      invariant pending <= previous.Keys && Deleted(previous, previous.Keys - pending - next.Keys, rel)
      decreases pending
    {
      var key :| key in pending;
      GoneStep(previous.Keys, pending, next.Keys, key);
      if key !in next {
        log.items := log.items + [Operation(path + [Name(key)], Delete)];
        ghost var op := Operation([Name(key)], Delete);
        PrefixedSingle(path, op);
        Logged(old(log.items), path, rel, [op]);
        DeletedOne(previous, previous.Keys - pending - next.Keys, key, rel);
        rel := rel + [op];
      }
      pending := pending - {key};
    }
    DeletedAll(previous, next.Keys, rel);
  }

  /** The keys `gone` have been deleted, each by one operation. */
  ghost predicate Deleted(previous: map<string, Json>, gone: set<string>, rel: seq<Operation>) {
    && ApplyEdits(Obj(previous), rel) == Ok(Obj(previous - gone))
    && (forall i :: 0 <= i < |rel| ==> |rel[i].path| == 1 && rel[i].path[0].Name? && rel[i].edit.Delete?)
    && |rel| == |gone|
  }

  lemma PrefixedSingle(path: Path, op: Operation)
    ensures Prefixed(path, [op]) == [Operation(path + op.path, op.edit)]
  {
  }

  lemma GoneStart(previous: map<string, Json>, kept: set<string>)
    ensures Deleted(previous, previous.Keys - previous.Keys - kept, [])
  {
    assert previous.Keys - previous.Keys - kept == {} && previous - {} == previous;
  }

  lemma GoneStep(all: set<string>, pending: set<string>, kept: set<string>, key: string)
    requires key in pending && pending <= all
    ensures key !in all - pending - kept
    ensures all - (pending - {key}) - kept == all - pending - kept + if key in kept then {} else {key}
  {
  }

  lemma DeletedOne(previous: map<string, Json>, gone: set<string>, key: string, rel: seq<Operation>)
    requires key in previous && key !in gone && Deleted(previous, gone, rel)
    ensures Deleted(previous, gone + {key}, rel + [Operation([Name(key)], Delete)])
  {
    hide ApplyEdits, ApplyEdit;
    KeyDeleted(previous, gone, key);
    AppendEdit(Obj(previous), rel, Obj(previous - gone), Operation([Name(key)], Delete));
  }

  lemma KeyDeleted(fields: map<string, Json>, gone: set<string>, key: string)
    requires key in fields && key !in gone
    ensures ApplyEdit(Obj(fields - gone), Operation([Name(key)], Delete)) == Ok(Obj(fields - (gone + {key})))
  {
    assert fields - gone - {key} == fields - (gone + {key});
  }

  lemma DeletedAll(previous: map<string, Json>, kept: set<string>, rel: seq<Operation>)
    requires Deleted(previous, previous.Keys - {} - kept, rel)
    ensures Deleted(previous, previous.Keys - kept, rel)
  {
    hide Deleted;
    assert previous.Keys - {} - kept == previous.Keys - kept;
  }

  /** One key of `next`: an edit of the old value, or a `set` of a new key. */
  method DiffField(previous: map<string, Json>, next: map<string, Json>, key: string, path: Path, log: OperationLog)
    returns (outcome: Outcome<DeltaError>, ghost rel: seq<Operation>)
    requires |path| <= MAX_PATH && key in next
    modifies log
    ensures log.items == old(log.items) + Prefixed(path, rel)
    ensures FieldDone(previous, next, key, path, outcome, rel)
    decreases 2 * MAX_PATH - |path|, 2
  {
    if key in previous {
      outcome, rel := DiffChild(previous[key], next[key], Name(key), path, log);
      FieldEdited(previous, next, key, path, outcome, rel);
    } else {
      outcome := Pass;
      log.items := log.items + [Operation(path + [Name(key)], Set(next[key]))];
      rel := [Operation([Name(key)], Set(next[key]))];
      FieldAdded(previous, next, key, path);
    }
  }

  lemma FieldEdited(previous: map<string, Json>, next: map<string, Json>, key: string, path: Path,
                    outcome: Outcome<DeltaError>, rel: seq<Operation>)
    requires key in previous && key in next
    requires ChildDone(previous[key], next[key], Name(key), path, outcome, rel)
    ensures FieldDone(previous, next, key, path, outcome, rel)
  {
    assert FieldEffort(Obj(previous), Obj(next), key) == Below(EffortOf(previous[key], next[key]));
    hide FieldEffort, EffortOf, Spent, Room, Below, IndicesFit, ApplyEdits;
    if outcome.Pass? {
      forall fields: map<string, Json> | key in fields && fields[key] == previous[key]
        ensures ApplyEdits(Obj(fields), rel) == Ok(Obj(fields[key := next[key]]))
      {
        assert Child(Obj(fields), Name(key)) == previous[key];
      }
    }
  }

  lemma FieldAdded(previous: map<string, Json>, next: map<string, Json>, key: string, path: Path)
    requires key in next && key !in previous
    ensures FieldDone(previous, next, key, path, Pass, [Operation([Name(key)], Set(next[key]))])
  {
    var rel := [Operation([Name(key)], Set(next[key]))];
    assert PathsFit(rel, path) <==> |path| + |rel[0].path| <= MAX_PATH;
    assert IndicesFit(rel);
    hide PathsFit, IndicesFit;
    forall fields: map<string, Json>
      ensures ApplyEdits(Obj(fields), rel) == Ok(Obj(fields[key := next[key]]))
    {
      SingleEdit(Obj(fields), rel[0]);
    }
  }

  // ---------------------------------------------------------------- snapshots

  datatype RunStateSnapshot = RunStateSnapshot(value: Json, hash: Digest)

  function PrepareRunState(value: Json): Result<RunStateSnapshot, DeltaError> {
    if value.Obj? then Ok(RunStateSnapshot(value, StateHash(value))) else Err(InvalidState)
  }

  /** `d` is fenced to the pair and its operations lead from one to the other. */
  ghost predicate LeadsFromTo(d: RunStateDelta, previous: Json, next: Json) {
    && d.version == 1 && d.baseHash == StateHash(previous) && d.resultHash == StateHash(next)
    && ApplyEdits(previous, d.operations) == Ok(next)
  }

  /** The diff does not throw: it enters no value below a path of 128. */
  ghost predicate Diffable(previous: Json, next: Json) {
    EffortOf(previous, next).entered <= MAX_PATH + 1
  }

  /** The operations of the diff keep both bounds of the application. */
  ghost predicate Deliverable(previous: Json, next: Json) {
    EffortOf(previous, next).operations <= MAX_OPERATIONS && EffortOf(previous, next).touched <= MAX_PATH + 1
  }

  /** The two bounds that `applyRunStateDelta` enforces on what it is handed. */
  predicate WithinLimits(d: RunStateDelta) {
    |d.operations| <= MAX_OPERATIONS && forall i :: 0 <= i < |d.operations| ==> ValidPath(d.operations[i].path)
  }

  /** What is known of the delta that the diff makes; its order of keys is not. */
  ghost predicate IsDiff(d: RunStateDelta, previous: Json, next: Json) {
    && LeadsFromTo(d, previous, next) && |d.operations| == EffortOf(previous, next).operations
    && (WithinLimits(d) <==> Deliverable(previous, next))
  }

  method DiffRunStateSnapshots(previous: RunStateSnapshot, next: RunStateSnapshot)
    returns (r: Result<RunStateDelta, DeltaError>)
    requires previous.hash == StateHash(previous.value) && next.hash == StateHash(next.value)
    ensures r.Ok? ==> IsDiff(r.value, previous.value, next.value)
    ensures r.Ok? ==> (r.value.operations == [] <==> previous.value == next.value)
    ensures r.Ok? <==> Diffable(previous.value, next.value)
    ensures DepthAtMost(previous.value, MAX_PATH) && DepthAtMost(next.value, MAX_PATH) ==>
              r.Ok? && forall i :: 0 <= i < |r.value.operations| ==> ValidPath(r.value.operations[i].path)
    ensures r.Err? ==> r.error == InvalidPath
  {
    hide EffortOf, DepthAtMost, ApplyEdits, IndicesFit, PathsFit, InsertedRows;
    var log := new OperationLog();
    ghost var rel;
    var outcome;
    outcome, rel := DiffValue(previous.value, next.value, [], log);
    PrefixedNothing(rel);
    if DepthAtMost(previous.value, MAX_PATH) && DepthAtMost(next.value, MAX_PATH) {
      DepthBounds(previous.value, next.value, MAX_PATH);
    }
    if previous.value == next.value { EqualTakesNothing(next.value); }
    if outcome.Fail? { return Err(outcome.error); }
    assert log.items == rel;
    PathsAtRoot(rel);
    NoEdits(previous.value);
    r := Ok(RunStateDelta(1, previous.hash, next.hash, log.items));
  }

  lemma NoEdits(root: Json)
    ensures ApplyEdits(root, []) == Ok(root)
  {
  }

  lemma PathsAtRoot(ops: seq<Operation>)
    requires IndicesFit(ops)
    ensures PathsFit(ops, []) <==> forall i :: 0 <= i < |ops| ==> ValidPath(ops[i].path)
  {
  }

  lemma {:induction false} PrefixedNothing(ops: seq<Operation>)
    ensures Prefixed([], ops) == ops
    decreases |ops|
  {
    if ops != [] {
      assert [] + ops[0].path == ops[0].path;
      PrefixedNothing(ops[1..]);
    }
  }

  /** Exactly when a delta between two states can be applied. */
  lemma RoundTrip(d: RunStateDelta, previous: Json, next: Json)
    requires LeadsFromTo(d, previous, next) && previous.Obj? && next.Obj?
    ensures ApplyDelta(previous, d) == Ok(next) <==> WithinLimits(d)
    ensures WithinLimits(d) ==> EveryStepApplicable(previous, d.operations)
  {
    if forall i :: 0 <= i < |d.operations| ==> ValidPath(d.operations[i].path) {
      ValidPathsOnly(previous, d.operations);
      EveryOperationApplicable(previous, d.operations);
    } else {
      var i :| 0 <= i < |d.operations| && !ValidPath(d.operations[i].path);
      InvalidPathRejected(previous, d.operations, i);
    }
  }

  /** Each operation has a valid path and an in-range index and delete count when
      it is reached. */
  ghost predicate EveryStepApplicable(root: Json, ops: seq<Operation>) {
    forall i :: 0 <= i < |ops| ==>
      ApplyOperations(root, ops[..i]).Ok? && Applicable(ApplyOperations(root, ops[..i]).value, ops[i])
  }

  /** Between any two states: when the diff throws, when its delta applies to the state it
      was made from - to no other it ever does - and what is enough for both. */
  method CreateRunStateDelta(previous: Json, next: Json) returns (r: Result<RunStateDelta, DeltaError>)
    ensures !(previous.Obj? && next.Obj?) ==> r == Err(InvalidState)
    ensures previous.Obj? && next.Obj? ==> (r.Ok? <==> Diffable(previous, next))
    ensures r.Ok? ==> (ApplyDelta(previous, r.value) == Ok(next) <==> Deliverable(previous, next))
    ensures r.Ok? && Deliverable(previous, next) ==> EveryStepApplicable(previous, r.value.operations)
    ensures r.Ok? ==> (r.value.operations == [] <==> previous == next)
    ensures r.Ok? ==> |r.value.operations| == EffortOf(previous, next).operations
    ensures r.Ok? ==> forall other: Json :: other != previous ==> ApplyDelta(other, r.value).Err?
    ensures previous.Obj? && next.Obj? && ModestStates(previous, next) ==>
              r.Ok? && ApplyDelta(previous, r.value) == Ok(next)
  {
    var base := PrepareRunState(previous);
    var target := PrepareRunState(next);
    if base.Err? { return Err(base.error); }
    if target.Err? { return Err(target.error); }
    r := DiffRunStateSnapshots(base.value, target.value);
    if r.Ok? { RoundTrip(r.value, previous, next); }
    if ModestStates(previous, next) { ModestIsEnough(previous, next); }
    hide ApplyEdits, EffortOf, ModestStates;
  }

  /** Nested at most 128 levels and of at most 100000 values together. */
  ghost predicate ModestStates(previous: Json, next: Json) {
    DepthAtMost(previous, MAX_PATH) && DepthAtMost(next, MAX_PATH) && Nodes(previous) + Nodes(next) <= MAX_OPERATIONS
  }

  lemma ModestIsEnough(previous: Json, next: Json)
    requires ModestStates(previous, next)
    ensures Diffable(previous, next) && Deliverable(previous, next)
  {
    DepthBounds(previous, next, MAX_PATH);
    SizeBounds(previous, next);
    hide EffortOf, Nodes, DepthAtMost;
  }

  /** The diff produces more operations than the application takes: 100001 flags flipped. */
  lemma TooManyOperations()
    ensures var previous, next := Flagged(MAX_OPERATIONS + 1, false), Flagged(MAX_OPERATIONS + 1, true);
            && previous.Obj? && next.Obj? && Diffable(previous, next) && !Deliverable(previous, next)
            && EffortOf(previous, next).operations == MAX_OPERATIONS + 1
  {
    FlaggedEffort(MAX_OPERATIONS + 1);
    hide EffortOf, Flags;
  }

  /** The diff produces a path of 129 steps, which the application refuses: a key added in a
      record inside 128 others. */
  lemma TooLongPath()
    ensures var previous, next := Nested(MAX_PATH, map[]), Nested(MAX_PATH, map["a" := Null]);
            && previous.Obj? && next.Obj? && Diffable(previous, next) && !Deliverable(previous, next)
            && EffortOf(previous, next).operations == 1
  {
    NestedEffort(MAX_PATH);
    hide EffortOf;
  }

  // -------------------------------------------------------------- application

  /** `atPath`, as the loop that walks down from the root. */
  method ResolvePath(root: Json, path: Path) returns (r: Result<Json, DeltaError>)
    ensures r == AtPath(root, path)
  {
    var current := root;
    for i := 0 to |path|
      invariant AtPath(root, path) == AtPath(current, path[i..])
    {
      assert path[i..][0] == path[i] && path[i..][1..] == path[i + 1..];
      if !HasChild(current, path[i]) { return Err(InvalidPath); }
      current := Child(current, path[i]);
    }
    r := Ok(current);
  }

  method ApplyRunStateDelta(previous: Json, input: RunStateDelta) returns (r: Result<Json, DeltaError>)
    ensures r == ApplyDelta(previous, input)
  {
    if input.version != 1 || !input.baseHash.Sha256? || !input.resultHash.Sha256?
       || |input.operations| > MAX_OPERATIONS {
      return Err(InvalidDelta);
    }
    if !previous.Obj? { return Err(InvalidState); }
    if StateHash(previous) != input.baseHash { return Err(BaseMismatch); }
    var result := previous;
    for i := 0 to |input.operations|
      invariant ApplyOperations(previous, input.operations) == ApplyOperations(result, input.operations[i..])
    {
      var op := input.operations[i];
      assert input.operations[i..][0] == op && input.operations[i..][1..] == input.operations[i + 1..];
      if !ValidPath(op.path) { return Err(InvalidOperation); }
      var step := PerformEdit(result, op);
      if step.Err? { return Err(step.error); }
      result := step.value;
    }
    if !result.Obj? || StateHash(result) != input.resultHash { return Err(ResultMismatch); }
    r := Ok(result);
  }

  /** The branches of the loop body. */
  method PerformEdit(root: Json, op: Operation) returns (r: Result<Json, DeltaError>)
    ensures r == ApplyEdit(root, op)
  {
    match op.edit {
      case Set(value) => r := SetPath(root, op.path, value);
      case Delete => r := DeletePath(root, op.path);
      case Splice(index, count, values) =>
        var target := ResolvePath(root, op.path);
        if target.Err? { return Err(target.error); }
        if !target.value.Arr? || !ValidRange(index, count, |target.value.items|) { return Err(InvalidOperation); }
        var items := target.value.items;
        r := SetPath(root, op.path, Arr(items[..index] + values + items[index + count..]));
      case Text(index, count, text) =>
        var target := ResolvePath(root, op.path);
        if target.Err? { return Err(target.error); }
        if !target.value.Str? || !ValidRange(index, count, |target.value.s|) { return Err(InvalidOperation); }
        var s := target.value.s;
        r := SetPath(root, op.path, Str(s[..index] + text + s[index + count..]));
      case Unknown => r := Err(InvalidOperation);
    }
  }
}
