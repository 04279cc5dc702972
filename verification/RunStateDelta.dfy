/** The delta language of run-state-delta.ts: what an operation does to a state,
    and the fenced application of a whole delta. */
module RunStateDelta {
  import opened Results
  import opened Json

  datatype Key = Name(name: string) | Index(index: int)

  type Path = seq<Key>

  datatype Edit =
    | Set(value: Json)
    | Delete
    | Splice(index: int, deleteCount: int, values: seq<Json>)
    | Text(index: int, deleteCount: int, text: string)
    | Unknown  // any other `type`, or a known one with missing or extra keys

  datatype Operation = Operation(path: Path, edit: Edit)

  datatype DeltaError =
    | InvalidDelta
    | InvalidState
    | BaseMismatch
    | InvalidOperation
    | InvalidPath
    | ResultMismatch

  /** SHA-256 of the canonical text, idealised as collision-free: the digest of
      a value is determined by, and determines, the value. */
  datatype Digest = Sha256(preimage: Json) | NotADigest(text: string)

  function StateHash(v: Json): Digest {
    Sha256(v)
  }

  datatype RunStateDelta = RunStateDelta(
    version: int, baseHash: Digest, resultHash: Digest, operations: seq<Operation>)

  const MAX_PATH := 128
  const MAX_OPERATIONS := 100000

  // ------------------------------------------------------------------ paths

  predicate ValidPath(path: Path) {
    |path| <= MAX_PATH && forall i :: 0 <= i < |path| ==> path[i].Index? ==> path[i].index >= 0
  }

  /** Does `key` name an existing child of `v`? */
  predicate HasChild(v: Json, key: Key) {
    match key
    case Index(i) => v.Arr? && 0 <= i < |v.items|
    case Name(k) => v.Obj? && k in v.fields
  }

  function Child(v: Json, key: Key): Json
    requires HasChild(v, key)
  {
    match key
    case Index(i) => v.items[i]
    case Name(k) => v.fields[k]
  }

  /** `v` with its existing child at `key` replaced. */
  function Put(v: Json, key: Key, child: Json): Json
    requires HasChild(v, key)
  {
    match key
    case Index(i) => Arr(v.items[i := child])
    case Name(k) => Obj(v.fields[k := child])
  }

  function AtPath(root: Json, path: Path): Result<Json, DeltaError> {
    if path == [] then Ok(root)
    else if HasChild(root, path[0]) then AtPath(Child(root, path[0]), path[1..])
    else Err(InvalidPath)
  }

  function SetPath(root: Json, path: Path, value: Json): Result<Json, DeltaError> {
    if path == [] then Ok(value)
    else if |path| == 1 && root.Obj? && path[0].Name? then Ok(Obj(root.fields[path[0].name := value]))
    else if HasChild(root, path[0]) then
      var child :- SetPath(Child(root, path[0]), path[1..], value);
      Ok(Put(root, path[0], child))
    else Err(InvalidPath)
  }

  function DeletePath(root: Json, path: Path): Result<Json, DeltaError> {
    if path == [] || !HasChild(root, path[0]) then Err(InvalidPath)
    else if |path| == 1 then
      if root.Obj? then Ok(Obj(root.fields - {path[0].name})) else Err(InvalidPath)
    else
      var child :- DeletePath(Child(root, path[0]), path[1..]);
      Ok(Put(root, path[0], child))
  }

  // ------------------------------------------------------------- operations

  predicate ValidRange(index: int, count: int, length: nat) {
    0 <= index <= length && 0 <= count <= length - index
  }

  /** One operation, once its path has passed `ValidPath`. */
  function ApplyEdit(root: Json, op: Operation): Result<Json, DeltaError> {
    match op.edit
    case Set(value) => SetPath(root, op.path, value)
    case Delete => DeletePath(root, op.path)
    case Splice(index, count, values) =>
      var target :- AtPath(root, op.path);
      if target.Arr? && ValidRange(index, count, |target.items|) then
        SetPath(root, op.path, Arr(target.items[..index] + values + target.items[index + count..]))
      else Err(InvalidOperation)
    case Text(index, count, text) =>
      var target :- AtPath(root, op.path);
      if target.Str? && ValidRange(index, count, |target.s|) then
        SetPath(root, op.path, Str(target.s[..index] + text + target.s[index + count..]))
      else Err(InvalidOperation)
    case Unknown => Err(InvalidOperation)
  }

  function ApplyEdits(root: Json, ops: seq<Operation>): Result<Json, DeltaError>
    decreases |ops|
  {
    if ops == [] then Ok(root)
    else
      var next :- ApplyEdit(root, ops[0]);
      ApplyEdits(next, ops[1..])
  }

  function ApplyOperation(root: Json, op: Operation): Result<Json, DeltaError> {
    if ValidPath(op.path) then ApplyEdit(root, op) else Err(InvalidOperation)
  }

  function ApplyOperations(root: Json, ops: seq<Operation>): Result<Json, DeltaError>
    decreases |ops|
  {
    if ops == [] then Ok(root)
    else
      var next :- ApplyOperation(root, ops[0]);
      ApplyOperations(next, ops[1..])
  }

  predicate WellFormedDelta(d: RunStateDelta) {
    d.version == 1 && d.baseHash.Sha256? && d.resultHash.Sha256? && |d.operations| <= MAX_OPERATIONS
  }

  /** What `applyRunStateDelta` computes. */
  function ApplyDelta(previous: Json, d: RunStateDelta): Result<Json, DeltaError> {
    if !WellFormedDelta(d) then Err(InvalidDelta)
    else if !previous.Obj? then Err(InvalidState)
    else if StateHash(previous) != d.baseHash then Err(BaseMismatch)
    else
      var result :- ApplyOperations(previous, d.operations);
      if result.Obj? && StateHash(result) == d.resultHash then Ok(result) else Err(ResultMismatch)
  }

  // --------------------------------------------- laws of reading and writing

  /** Reading back at, below and beside a written path. */
  lemma {:induction false} SetThenRead(root: Json, path: Path, value: Json, other: Path)
    requires SetPath(root, path, value).Ok?
    ensures path <= other ==>
              AtPath(SetPath(root, path, value).value, other) == AtPath(value, other[|path|..])
    ensures !(path <= other) && !(other <= path) ==>
              AtPath(SetPath(root, path, value).value, other) == AtPath(root, other)
  {
    if path == [] || other == [] {
      assert other[0..] == other;
    } else {
      var written := SetPath(root, path, value).value;
      assert path <= other <==> path[0] == other[0] && path[1..] <= other[1..];
      assert other <= path <==> path[0] == other[0] && other[1..] <= path[1..];
      if |path| == 1 && root.Obj? && path[0].Name? {
        assert path[0] == other[0] ==> path <= other && other[1..] == other[|path|..];
      } else {
        SetThenRead(Child(root, path[0]), path[1..], value, other[1..]);
        assert path <= other ==> other[1..][|path| - 1..] == other[|path|..];
      }
    }
  }

  /** A delete removes exactly its key: beside the path nothing changes, and the
      path itself no longer resolves. */
  lemma {:induction false} DeleteThenRead(root: Json, path: Path, other: Path)
    requires DeletePath(root, path).Ok?
    ensures path <= other ==> AtPath(DeletePath(root, path).value, other).Err?
    ensures !(path <= other) && !(other <= path) ==>
              AtPath(DeletePath(root, path).value, other) == AtPath(root, other)
  {
    if other != [] {
      assert path <= other <==> path[0] == other[0] && path[1..] <= other[1..];
      assert other <= path <==> path[0] == other[0] && other[1..] <= path[1..];
      if |path| > 1 {
        DeleteThenRead(Child(root, path[0]), path[1..], other[1..]);
      }
    }
  }

  // ------------------------------------------ operations on part of a state

  function Lift(key: Key, op: Operation): Operation {
    Operation([key] + op.path, op.edit)
  }

  function LiftAll(key: Key, ops: seq<Operation>): seq<Operation> {
    if ops == [] then [] else [Lift(key, ops[0])] + LiftAll(key, ops[1..])
  }

  /** The operations `ops`, found below a value, as addressed from the root. */
  function Prefixed(prefix: Path, ops: seq<Operation>): seq<Operation> {
    if ops == [] then [] else [Operation(prefix + ops[0].path, ops[0].edit)] + Prefixed(prefix, ops[1..])
  }

  lemma {:induction false} LiftAllAt(key: Key, ops: seq<Operation>)
    ensures |LiftAll(key, ops)| == |ops|
    ensures forall i :: 0 <= i < |ops| ==> LiftAll(key, ops)[i] == Lift(key, ops[i])
    decreases |ops|
  {
    if ops != [] { LiftAllAt(key, ops[1..]); }
  }

  lemma {:induction false} PrefixedAt(prefix: Path, ops: seq<Operation>)
    ensures |Prefixed(prefix, ops)| == |ops|
    ensures forall i :: 0 <= i < |ops| ==>
              Prefixed(prefix, ops)[i] == Operation(prefix + ops[i].path, ops[i].edit)
    decreases |ops|
  {
    if ops != [] { PrefixedAt(prefix, ops[1..]); }
  }

  /** An operation on a child, addressed from its parent, changes that child only. */
  lemma LiftedEdit(root: Json, key: Key, op: Operation)
    requires HasChild(root, key)
    requires ApplyEdit(Child(root, key), op).Ok?
    ensures ApplyEdit(root, Lift(key, op)) == Ok(Put(root, key, ApplyEdit(Child(root, key), op).value))
  {
    var path := [key] + op.path;
    assert path[0] == key && path[1..] == op.path;
  }

  lemma {:induction false} LiftedEdits(root: Json, key: Key, ops: seq<Operation>)
    requires HasChild(root, key)
    requires ApplyEdits(Child(root, key), ops).Ok?
    ensures ApplyEdits(root, LiftAll(key, ops)) == Ok(Put(root, key, ApplyEdits(Child(root, key), ops).value))
    decreases |ops|
  {
    if ops == [] {
      assert LiftAll(key, ops) == [];
      assert Put(root, key, Child(root, key)) == root;
    } else {
      LiftedEdit(root, key, ops[0]);
      var child := ApplyEdit(Child(root, key), ops[0]).value;
      var next := Put(root, key, child);
      assert Child(next, key) == child;
      LiftedEdits(next, key, ops[1..]);
      assert forall v :: Put(next, key, v) == Put(root, key, v);
    }
  }

  lemma {:induction false} ApplyEditsConcat(root: Json, a: seq<Operation>, b: seq<Operation>)
    requires ApplyEdits(root, a).Ok?
    ensures ApplyEdits(root, a + b) == ApplyEdits(ApplyEdits(root, a).value, b)
    decreases |a|
  {
    if a == [] {
      assert a + b == b;
    } else {
      assert (a + b)[1..] == a[1..] + b;
      ApplyEditsConcat(ApplyEdit(root, a[0]).value, a[1..], b);
    }
  }

  /** With every path valid, the checked and unchecked interpreters agree. */
  lemma {:induction false} ValidPathsOnly(root: Json, ops: seq<Operation>)
    requires forall i :: 0 <= i < |ops| ==> ValidPath(ops[i].path)
    ensures ApplyOperations(root, ops) == ApplyEdits(root, ops)
    decreases |ops|
  {
    if ops != [] && ApplyEdit(root, ops[0]).Ok? {
      ValidPathsOnly(ApplyEdit(root, ops[0]).value, ops[1..]);
    }
  }

  lemma {:induction false} InvalidPathRejected(root: Json, ops: seq<Operation>, i: nat)
    requires i < |ops| && !ValidPath(ops[i].path)
    ensures ApplyOperations(root, ops).Err?
    decreases |ops|
  {
    if i > 0 && ApplyOperation(root, ops[0]).Ok? {
      InvalidPathRejected(ApplyOperation(root, ops[0]).value, ops[1..], i - 1);
    }
  }

  // ------------------------------------------------------------- the fences

  /** What an operation needs of the state it meets, said without running it. */
  ghost predicate Applicable(root: Json, op: Operation) {
    ValidPath(op.path) &&
    match op.edit
    case Set(_) =>
      op.path == [] ||
      (var parent := AtPath(root, op.path[..|op.path| - 1]);
       parent.Ok? && (HasChild(parent.value, op.path[|op.path| - 1])
                      || (parent.value.Obj? && op.path[|op.path| - 1].Name?)))
    case Delete =>
      op.path != [] &&
      (var parent := AtPath(root, op.path[..|op.path| - 1]);
       parent.Ok? && parent.value.Obj? && HasChild(parent.value, op.path[|op.path| - 1]))
    case Splice(index, count, _) =>
      var target := AtPath(root, op.path);
      target.Ok? && target.value.Arr? && 0 <= index && 0 <= count && index + count <= |target.value.items|
    case Text(index, count, _) =>
      var target := AtPath(root, op.path);
      target.Ok? && target.value.Str? && 0 <= index && 0 <= count && index + count <= |target.value.s|
    case Unknown => false
  }

  lemma {:induction false} SetPathDefined(root: Json, path: Path, value: Json)
    requires path != []
    ensures SetPath(root, path, value).Ok? <==>
            var parent := AtPath(root, path[..|path| - 1]);
            parent.Ok? && (HasChild(parent.value, path[|path| - 1])
                           || (parent.value.Obj? && path[|path| - 1].Name?))
    decreases |path|
  {
    if |path| > 1 && HasChild(root, path[0]) {
      SetPathDefined(Child(root, path[0]), path[1..], value);
      assert path[..|path| - 1][1..] == path[1..][..|path| - 2];
    }
  }

  lemma {:induction false} DeletePathDefined(root: Json, path: Path)
    requires path != []
    ensures DeletePath(root, path).Ok? <==>
            var parent := AtPath(root, path[..|path| - 1]);
            parent.Ok? && parent.value.Obj? && HasChild(parent.value, path[|path| - 1])
    decreases |path|
  {
    if |path| > 1 && HasChild(root, path[0]) {
      DeletePathDefined(Child(root, path[0]), path[1..]);
      assert path[..|path| - 1][1..] == path[1..][..|path| - 2];
    }
  }

  lemma {:induction false} ResolvedPathSettable(root: Json, path: Path, value: Json)
    requires AtPath(root, path).Ok?
    ensures SetPath(root, path, value).Ok?
    decreases |path|
  {
    if |path| > 0 {
      ResolvedPathSettable(Child(root, path[0]), path[1..], value);
    }
  }

  lemma ApplicableExactly(root: Json, op: Operation)
    ensures ApplyOperation(root, op).Ok? <==> Applicable(root, op)
  {
    match op.edit
    case Set(value) =>
      if op.path != [] { SetPathDefined(root, op.path, value); }
    case Delete =>
      if op.path != [] { DeletePathDefined(root, op.path); }
    case Splice(index, count, values) =>
      if AtPath(root, op.path).Ok? && AtPath(root, op.path).value.Arr?
         && ValidRange(index, count, |AtPath(root, op.path).value.items|) {
        var items := AtPath(root, op.path).value.items;
        ResolvedPathSettable(root, op.path, Arr(items[..index] + values + items[index + count..]));
      }
    case Text(index, count, text) =>
      if AtPath(root, op.path).Ok? && AtPath(root, op.path).value.Str?
         && ValidRange(index, count, |AtPath(root, op.path).value.s|) {
        var s := AtPath(root, op.path).value.s;
        ResolvedPathSettable(root, op.path, Str(s[..index] + text + s[index + count..]));
      }
    case Unknown =>
  }

  /** A list of operations succeeds exactly when each one is applicable at the
      moment it is reached. */
  lemma {:induction false} EveryOperationApplicable(root: Json, ops: seq<Operation>)
    ensures ApplyOperations(root, ops).Ok? <==>
            forall i :: 0 <= i < |ops| ==>
              ApplyOperations(root, ops[..i]).Ok? && Applicable(ApplyOperations(root, ops[..i]).value, ops[i])
    decreases |ops|
  {
    if ops != [] {
      ApplicableExactly(root, ops[0]);
      assert ApplyOperations(root, ops[..0]) == Ok(root);
      if ApplyOperation(root, ops[0]).Ok? {
        var next := ApplyOperation(root, ops[0]).value;
        EveryOperationApplicable(next, ops[1..]);
        forall i | 0 <= i < |ops[1..]|
          ensures ApplyOperations(root, ops[..i + 1]) == ApplyOperations(next, ops[1..][..i])
          ensures ops[1..][i] == ops[i + 1]
        {
          assert ops[..i + 1][1..] == ops[1..][..i];
        }
        if !ApplyOperations(next, ops[1..]).Ok? {
          var i :| 0 <= i < |ops[1..]|
                   && !(ApplyOperations(next, ops[1..][..i]).Ok?
                        && Applicable(ApplyOperations(next, ops[1..][..i]).value, ops[1..][i]));
          assert 0 <= i + 1 < |ops|;
          assert ops[1..][i] == ops[i + 1];
        } else {
          forall i | 0 <= i < |ops|
            ensures ApplyOperations(root, ops[..i]).Ok? && Applicable(ApplyOperations(root, ops[..i]).value, ops[i])
          {
            if i > 0 { assert ops[1..][i - 1] == ops[i]; }
          }
        }
      } else {
        assert !Applicable(ApplyOperations(root, ops[..0]).value, ops[0]);
      }
    }
  }

  /** A delta can be applied to one state only, and yields one state only. */
  lemma FencedByHashes(a: Json, b: Json, d: RunStateDelta, r: Json)
    requires ApplyDelta(a, d) == Ok(r)
    ensures d.baseHash == StateHash(a) && d.resultHash == StateHash(r)
    ensures b.Obj? && b != a ==> ApplyDelta(b, d) == Err(BaseMismatch)
    ensures forall ops, s :: ApplyDelta(a, d.(operations := ops)) == Ok(s) ==> s == r
  {
  }

  /** A delta is in the form that is read: version 1, two digests, at most 100000 operations. */
  ghost predicate Readable(d: RunStateDelta) {
    && d.version == 1 && |d.operations| <= 100000
    && (exists v :: d.baseHash == Sha256(v)) && (exists v :: d.resultHash == Sha256(v))
  }

  /** The state after the first `n` operations meets the next one. */
  ghost predicate EachApplicable(root: Json, ops: seq<Operation>) {
    forall i :: 0 <= i < |ops| ==>
      ApplyOperations(root, ops[..i]).Ok? && Applicable(ApplyOperations(root, ops[..i]).value, ops[i])
  }

  /** When a delta is accepted, and what is reported otherwise, in the order of the checks. */
  lemma AcceptedExactly(previous: Json, d: RunStateDelta)
    ensures var r := ApplyDelta(previous, d);
            var result := ApplyOperations(previous, d.operations);
            && (r == Err(InvalidDelta) <==> !Readable(d))
            && (r == Err(InvalidState) <==> Readable(d) && !previous.Obj?)
            && (r == Err(BaseMismatch) <==> Readable(d) && previous.Obj? && d.baseHash != Sha256(previous))
            && (Readable(d) && previous.Obj? && d.baseHash == Sha256(previous) ==>
                  && (result.Ok? <==> EachApplicable(previous, d.operations))
                  && (r.Ok? <==> result.Ok? && result.value.Obj? && d.resultHash == Sha256(result.value))
                  && (r == Err(ResultMismatch) <==> result.Ok? && !r.Ok?)
                  && (r.Ok? ==> r == result))
  {
    EveryOperationApplicable(previous, d.operations);
    FailsOnItsOwn(previous, d.operations);
    assert d.baseHash.Sha256? ==> d.baseHash == Sha256(d.baseHash.preimage);
    assert d.resultHash.Sha256? ==> d.resultHash == Sha256(d.resultHash.preimage);
    hide ApplyOperations, Applicable;
  }

  /** Paths have at most 128 steps, and indices count from 0. */
  lemma PathsRead(root: Json, op: Operation)
    ensures |op.path| > 128 || (exists i, k :: 0 <= i < |op.path| && op.path[i] == Index(k) && k < 0) ==>
              ApplyOperation(root, op) == Err(InvalidOperation)
    ensures |op.path| <= 128 && (forall i, k :: 0 <= i < |op.path| && op.path[i] == Index(k) ==> k >= 0) ==>
              ApplyOperation(root, op) == ApplyEdit(root, op)
  {
    hide ApplyEdit;
    if |op.path| <= 128 && !ValidPath(op.path) {
      var i :| 0 <= i < |op.path| && op.path[i].Index? && op.path[i].index < 0;
      assert op.path[i] == Index(op.path[i].index);
    }
  }

  lemma {:induction false} EditFailure(root: Json, path: Path, value: Json)
    ensures SetPath(root, path, value).Err? ==> SetPath(root, path, value).error == InvalidPath
    ensures DeletePath(root, path).Err? ==> DeletePath(root, path).error == InvalidPath
    ensures AtPath(root, path).Err? ==> AtPath(root, path).error == InvalidPath
    decreases |path|
  {
    if path != [] && HasChild(root, path[0]) { EditFailure(Child(root, path[0]), path[1..], value); }
  }

  /** Operations report a path or an operation, nothing else. */
  lemma {:induction false} FailsOnItsOwn(root: Json, ops: seq<Operation>)
    ensures var r := ApplyOperations(root, ops); r.Err? ==> r.error == InvalidPath || r.error == InvalidOperation
    decreases |ops|
  {
    if ops != [] {
      var op := ops[0];
      forall value
        ensures SetPath(root, op.path, value).Err? ==> SetPath(root, op.path, value).error == InvalidPath
      {
        EditFailure(root, op.path, value);
      }
      EditFailure(root, op.path, root);
      hide SetPath, DeletePath, AtPath;
      if ApplyOperation(root, op).Ok? { FailsOnItsOwn(ApplyOperation(root, op).value, ops[1..]); }
    }
  }

  /** A splice or a text edit replaces its range at its path, and changes nothing beside. */
  lemma RangeThenRead(root: Json, op: Operation, other: Path)
    requires ApplyOperation(root, op).Ok? && (op.edit.Splice? || op.edit.Text?)
    ensures var r, at := ApplyOperation(root, op).value, AtPath(root, op.path);
            && at.Ok?
            && (match op.edit
                case Splice(i, n, values) =>
                  at.value.Arr? && 0 <= i && 0 <= n && i + n <= |at.value.items|
                  && AtPath(r, op.path) == Ok(Arr(at.value.items[..i] + values + at.value.items[i + n..]))
                case Text(i, n, text) =>
                  at.value.Str? && 0 <= i && 0 <= n && i + n <= |at.value.s|
                  && AtPath(r, op.path) == Ok(Str(at.value.s[..i] + text + at.value.s[i + n..]))
                case _ => true)
            && (!(op.path <= other) && !(other <= op.path) ==> AtPath(r, other) == AtPath(root, other))
  {
    assert op.path[|op.path|..] == [];
    match op.edit
    case Splice(i, n, values) =>
      var items := AtPath(root, op.path).value.items;
      SetThenRead(root, op.path, Arr(items[..i] + values + items[i + n..]), op.path);
      SetThenRead(root, op.path, Arr(items[..i] + values + items[i + n..]), other);
    case Text(i, n, text) =>
      var s := AtPath(root, op.path).value.s;
      SetThenRead(root, op.path, Str(s[..i] + text + s[i + n..]), op.path);
      SetThenRead(root, op.path, Str(s[..i] + text + s[i + n..]), other);
    case _ =>
  }
}
