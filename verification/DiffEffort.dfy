/** What the diff of two JSON values takes, read off the values alone: how many operations
    it pushes, how deep it goes, and how long its paths get. */
module DiffEffort {
  import opened Results
  import opened Ordering
  import opened Json

  // ---------------------------------------------------------------- row keys

  datatype RowKey = ById(id: string) | ByTool(kind: string, toolId: string, sequence: int)

  function KeyOf(v: Json): Option<RowKey> {
    if !v.Obj? then None
    else if "id" in v.fields && v.fields["id"].Str? then Some(ById(v.fields["id"].s))
    else if "sequence" in v.fields && v.fields["sequence"].Num? && SafeInteger(v.fields["sequence"].n)
            && "kind" in v.fields && v.fields["kind"].Str?
            && "toolId" in v.fields && v.fields["toolId"].Str? then
      Some(ByTool(v.fields["kind"].s, v.fields["toolId"].s, v.fields["sequence"].n.Floor))
    else None
  }

  predicate Keyed(rows: seq<Json>) {
    && (forall i :: 0 <= i < |rows| ==> KeyOf(rows[i]).Some?)
    && (forall i, j :: 0 <= i < j < |rows| ==> KeyOf(rows[i]) != KeyOf(rows[j]))
  }

  /** The text or number of a record under a key. */
  ghost predicate Holds(v: Json, key: string, x: Json) {
    v.Obj? && key in v.fields && v.fields[key] == x
  }

  /** Without an `id`, a row is known by its `kind`, its `toolId` and a whole `sequence`. */
  ghost predicate ToolRow(v: Json, kind: string, tool: string, n: int) {
    && (forall id :: !Holds(v, "id", Str(id)))
    && Holds(v, "kind", Str(kind)) && Holds(v, "toolId", Str(tool)) && Holds(v, "sequence", Num(n as real))
    && -9007199254740991 <= n <= 9007199254740991
  }

  ghost predicate SameRow(a: Json, b: Json) {
    || (exists id :: Holds(a, "id", Str(id)) && Holds(b, "id", Str(id)))
    || (exists kind, tool, n :: ToolRow(a, kind, tool, n) && ToolRow(b, kind, tool, n))
  }

  lemma KeyedById(v: Json, id: string)
    ensures KeyOf(v) == Some(ById(id)) <==> Holds(v, "id", Str(id))
  {
  }

  lemma KeyedByTool(v: Json, kind: string, tool: string, n: int)
    ensures KeyOf(v) == Some(ByTool(kind, tool, n)) <==> ToolRow(v, kind, tool, n)
  {
    if v.Obj? && "id" in v.fields && v.fields["id"].Str? { assert Holds(v, "id", Str(v.fields["id"].s)); }
  }

  /** Two rows have the same key, and one at all, exactly when they are the same row. */
  lemma KeysMatch(a: Json, b: Json)
    ensures KeyOf(a).Some? && KeyOf(a) == KeyOf(b) <==> SameRow(a, b)
  {
    hide KeyOf, Holds, ToolRow;
    forall v, id ensures KeyOf(v) == Some(ById(id)) <==> Holds(v, "id", Str(id)) { KeyedById(v, id); }
    forall v, kind, tool, n ensures KeyOf(v) == Some(ByTool(kind, tool, n)) <==> ToolRow(v, kind, tool, n) {
      KeyedByTool(v, kind, tool, n);
    }
    match KeyOf(a)
    case Some(ById(id)) => assert KeyOf(a) == KeyOf(b) ==> Holds(b, "id", Str(id));
    case Some(ByTool(kind, tool, n)) => assert KeyOf(a) == KeyOf(b) ==> ToolRow(b, kind, tool, n);
    case None =>
  }

  /** Lists are matched by keys exactly when every row has one and no two rows are the same. */
  lemma KeyedExactly(rows: seq<Json>)
    ensures Keyed(rows) <==>
              && (forall i :: 0 <= i < |rows| ==> SameRow(rows[i], rows[i]))
              && (forall i, j :: 0 <= i < j < |rows| ==> !SameRow(rows[i], rows[j]))
  {
    forall i | 0 <= i < |rows| ensures SameRow(rows[i], rows[i]) <==> KeyOf(rows[i]).Some? {
      KeysMatch(rows[i], rows[i]);
    }
    forall i, j | 0 <= i < j < |rows|
      ensures SameRow(rows[i], rows[j]) <==> KeyOf(rows[i]).Some? && KeyOf(rows[i]) == KeyOf(rows[j])
    {
      KeysMatch(rows[i], rows[j]);
    }
    hide KeyOf, SameRow;
  }

  /** Place of the first row with a key, or the length. */
  function FirstKey(rows: seq<Json>, key: Option<RowKey>): (m: nat)
    ensures m <= |rows|
    ensures m < |rows| ==> KeyOf(rows[m]) == key
    ensures forall j :: 0 <= j < m ==> KeyOf(rows[j]) != key
  {
    if rows == [] || KeyOf(rows[0]) == key then 0 else 1 + FirstKey(rows[1..], key)
  }

  // ------------------------------------------------------------------- effort

  /** Operations pushed; levels of values entered; levels that the pushed paths touch. The
      value itself is one level, and zero says that there is nothing to count. */
  datatype Effort = Effort(operations: nat, entered: nat, touched: nat)

  const NOTHING := Effort(0, 0, 0)
  const ENTER := Effort(0, 1, 0)
  const PUSH := Effort(1, 0, 1)
  const PUSH_BELOW := Effort(1, 0, 2)

  function Max(a: nat, b: nat): nat {
    if a < b then b else a
  }

  function Both(a: Effort, b: Effort): Effort {
    Effort(a.operations + b.operations, Max(a.entered, b.entered), Max(a.touched, b.touched))
  }

  /** The effort of a child, seen from its parent. */
  function Below(e: Effort): Effort {
    Effort(e.operations, if e.entered == 0 then 0 else e.entered + 1, if e.touched == 0 then 0 else e.touched + 1)
  }

  ghost function EffortOf(previous: Json, next: Json): Effort
    decreases next, 1, 0
  {
    if previous == next && previous.Primitive?() then NOTHING
    else
      Both(ENTER,
           if previous.Arr? && next.Arr? then
             if Keyed(previous.items) && Keyed(next.items) then KeyedEffort(previous.items, next, 0)
             else PlainEffort(previous, next, 0)
           else if previous.Obj? && next.Obj? then
             Both(Deletions(previous.fields.Keys - next.fields.Keys), FieldsEffort(previous, next, next.fields.Keys))
           else PUSH)
  }

  /** How many of the remaining old rows one new row uses up. */
  function RowTaken(rest: seq<Json>, row: Json): (taken: nat)
    ensures taken <= |rest|
  {
    var m := FirstKey(rest, KeyOf(row));
    if m == |rest| then 0 else m + 1
  }

  ghost function RowEffort(rest: seq<Json>, row: Json): Effort
    decreases row, 2, 0
  {
    var m := FirstKey(rest, KeyOf(row));
    if m == |rest| then PUSH
    else Both(if m > 0 then PUSH else NOTHING, Below(EffortOf(rest[m], row)))
  }

  /** Keyed rows, from the `index`-th new one on and with `rest` left of the old ones. */
  ghost function KeyedEffort(rest: seq<Json>, next: Json, index: nat): Effort
    requires next.Arr? && index <= |next.items|
    decreases next, 0, |next.items| - index
  {
    if index == |next.items| then (if rest != [] then PUSH else NOTHING)
    else
      var row := next.items[index];
      Both(RowEffort(rest, row), KeyedEffort(rest[RowTaken(rest, row)..], next, index + 1))
  }

  lemma KeyedUnfolds(rest: seq<Json>, next: Json, index: nat)
    requires next.Arr? && index <= |next.items|
    ensures KeyedEffort(rest, next, index) ==
            if index == |next.items| then (if rest != [] then PUSH else NOTHING)
            else
              Both(RowEffort(rest, next.items[index]),
                   KeyedEffort(rest[RowTaken(rest, next.items[index])..], next, index + 1))
  {
    hide RowEffort, RowTaken;
  }

  ghost function PlainEffort(previous: Json, next: Json, index: nat): Effort
    requires previous.Arr? && next.Arr?
    decreases next, 0, |next.items| - index
  {
    if index >= |previous.items| || index >= |next.items| then
      if |previous.items| != |next.items| then PUSH else NOTHING
    else Both(Below(EffortOf(previous.items[index], next.items[index])), PlainEffort(previous, next, index + 1))
  }

  lemma PlainUnfolds(previous: Json, next: Json, index: nat)
    requires previous.Arr? && next.Arr?
    ensures PlainEffort(previous, next, index) ==
            if index >= |previous.items| || index >= |next.items| then
              if |previous.items| != |next.items| then PUSH else NOTHING
            else Both(Below(EffortOf(previous.items[index], next.items[index])), PlainEffort(previous, next, index + 1))
  {
    hide EffortOf;
  }

  /** One operation for every key that goes. */
  function Deletions(gone: set<string>): Effort {
    if gone == {} then NOTHING else Effort(|gone|, 0, 2)
  }

  ghost function FieldEffort(previous: Json, next: Json, key: string): Effort
    requires previous.Obj? && next.Obj? && key in next.fields
    decreases next, 0, 0
  {
    if key in previous.fields then Below(EffortOf(previous.fields[key], next.fields[key])) else PUSH_BELOW
  }

  ghost function FieldsEffort(previous: Json, next: Json, keys: set<string>): Effort
    requires previous.Obj? && next.Obj? && keys <= next.fields.Keys
    decreases next, 0, |keys|
  {
    if keys == {} then NOTHING
    else
      var key := Smallest(keys);
      Both(FieldEffort(previous, next, key), FieldsEffort(previous, next, keys - {key}))
  }

  /** The keys may be counted in any order. */
  lemma {:induction false} FieldsPick(previous: Json, next: Json, keys: set<string>, key: string)
    requires previous.Obj? && next.Obj? && keys <= next.fields.Keys && key in keys
    ensures FieldsEffort(previous, next, keys) ==
            Both(FieldEffort(previous, next, key), FieldsEffort(previous, next, keys - {key}))
    decreases keys
  {
    hide FieldEffort;
    var first := Smallest(keys);
    if first != key {
      FieldsPick(previous, next, keys - {first}, key);
      FieldsPick(previous, next, keys - {key}, first);
      assert keys - {first} - {key} == keys - {key} - {first};
    }
  }

  // ------------------------------------------------------------------- bounds

  /** No operations between equal values. */
  lemma {:induction false} EqualTakesNothing(v: Json)
    ensures EffortOf(v, v).operations == 0 && EffortOf(v, v).touched == 0
    decreases v, 1, 0
  {
    match v
    case Arr(items) =>
      if Keyed(items) { KeyedTakesNothing(v, 0); } else { PlainTakesNothing(v, 0); }
    case Obj(fields) =>
      assert fields.Keys - fields.Keys == {};
      FieldsTakeNothing(v, fields.Keys);
    case _ =>
  }

  lemma {:induction false} KeyedTakesNothing(v: Json, index: nat)
    requires v.Arr? && Keyed(v.items) && index <= |v.items|
    ensures KeyedEffort(v.items[index..], v, index).operations == 0
    ensures KeyedEffort(v.items[index..], v, index).touched == 0
    decreases v, 0, |v.items| - index
  {
    hide Keyed, EffortOf, KeyedEffort, RowEffort, RowTaken;
    var rest := v.items[index..];
    KeyedUnfolds(rest, v, index);
    if index < |v.items| {
      assert rest[0] == v.items[index] && rest[1..] == v.items[index + 1..];
      EqualTakesNothing(rest[0]);
      KeyedTakesNothing(v, index + 1);
      FirstIsMatch(rest, rest[0]);
    }
  }

  lemma FirstIsMatch(rest: seq<Json>, row: Json)
    requires rest != [] && rest[0] == row
    ensures RowTaken(rest, row) == 1 && RowEffort(rest, row) == Both(NOTHING, Below(EffortOf(row, row)))
  {
    hide KeyOf, EffortOf;
  }

  lemma {:induction false} PlainTakesNothing(v: Json, index: nat)
    requires v.Arr?
    ensures PlainEffort(v, v, index).operations == 0 && PlainEffort(v, v, index).touched == 0
    decreases v, 0, |v.items| - index
  {
    if index < |v.items| {
      EqualTakesNothing(v.items[index]);
      PlainTakesNothing(v, index + 1);
      hide EffortOf;
    }
  }

  lemma {:induction false} FieldsTakeNothing(v: Json, keys: set<string>)
    requires v.Obj? && keys <= v.fields.Keys
    ensures FieldsEffort(v, v, keys).operations == 0 && FieldsEffort(v, v, keys).touched == 0
    decreases v, 0, |keys|
  {
    if keys != {} {
      var key := Smallest(keys);
      EqualTakesNothing(v.fields[key]);
      FieldsTakeNothing(v, keys - {key});
      hide EffortOf;
    }
  }

  ghost predicate Within(e: Effort, levels: nat) {
    e.entered <= levels && e.touched <= levels
  }

  /** Nesting bounds how deep a diff goes. */
  lemma {:induction false} DepthBounds(previous: Json, next: Json, d: nat)
    requires DepthAtMost(previous, d) && DepthAtMost(next, d)
    ensures Within(EffortOf(previous, next), d + 1)
    decreases next, 1, 0
  {
    if previous.Arr? && next.Arr? {
      if Keyed(previous.items) && Keyed(next.items) {
        KeyedDepth(previous.items, next, 0, d);
      } else {
        PlainDepth(previous, next, 0, d);
      }
    } else if previous.Obj? && next.Obj? {
      FieldsDepth(previous, next, next.fields.Keys, d);
    }
    hide Keyed, KeyOf;
  }

  lemma {:induction false} KeyedDepth(rest: seq<Json>, next: Json, index: nat, d: nat)
    requires next.Arr? && index <= |next.items| && DepthAtMost(next, d)
    requires forall i :: 0 <= i < |rest| ==> DepthAtMost(rest[i], d - 1)
    ensures Within(KeyedEffort(rest, next, index), d + 1)
    decreases next, 0, |next.items| - index
  {
    hide KeyedEffort, RowEffort, RowTaken;
    KeyedUnfolds(rest, next, index);
    if index < |next.items| {
      var row := next.items[index];
      assert DepthAtMost(row, d - 1);
      hide DepthAtMost;
      RowDepth(rest, row, d);
      KeyedDepth(rest[RowTaken(rest, row)..], next, index + 1, d);
    }
  }

  lemma RowDepth(rest: seq<Json>, row: Json, d: nat)
    requires d > 0 && DepthAtMost(row, d - 1) && forall i :: 0 <= i < |rest| ==> DepthAtMost(rest[i], d - 1)
    ensures Within(RowEffort(rest, row), d + 1)
    decreases row, 2, 0
  {
    hide DepthAtMost, KeyOf, EffortOf;
    var m := FirstKey(rest, KeyOf(row));
    if m < |rest| { DepthBounds(rest[m], row, d - 1); }
  }

  lemma {:induction false} PlainDepth(previous: Json, next: Json, index: nat, d: nat)
    requires previous.Arr? && next.Arr? && DepthAtMost(previous, d) && DepthAtMost(next, d)
    ensures Within(PlainEffort(previous, next, index), d + 1)
    decreases next, 0, |next.items| - index
  {
    if index < |previous.items| && index < |next.items| {
      DepthBounds(previous.items[index], next.items[index], d - 1);
      PlainDepth(previous, next, index + 1, d);
      hide EffortOf;
    }
  }

  lemma {:induction false} FieldsDepth(previous: Json, next: Json, keys: set<string>, d: nat)
    requires previous.Obj? && next.Obj? && keys <= next.fields.Keys && DepthAtMost(previous, d) && DepthAtMost(next, d)
    ensures Within(FieldsEffort(previous, next, keys), d + 1)
    decreases next, 0, |keys|
  {
    if keys != {} {
      var key := Smallest(keys);
      if key in previous.fields { DepthBounds(previous.fields[key], next.fields[key], d - 1); }
      FieldsDepth(previous, next, keys - {key}, d);
      hide EffortOf;
    }
  }

  // -------------------------------------------------------------------- sizes

  /** How many values a value consists of. */
  ghost function Nodes(v: Json): (n: nat)
    ensures n >= 1
    decreases v
  {
    match v
    case Arr(items) => 1 + RowNodes(items)
    case Obj(fields) => 1 + FieldNodes(v, fields.Keys)
    case _ => 1
  }

  ghost function RowNodes(rows: seq<Json>): nat
    decreases rows
  {
    if rows == [] then 0 else Nodes(rows[0]) + RowNodes(rows[1..])
  }

  ghost function FieldNodes(v: Json, keys: set<string>): nat
    requires v.Obj? && keys <= v.fields.Keys
    decreases v, |keys|
  {
    if keys == {} then 0
    else
      var key := Smallest(keys);
      Nodes(v.fields[key]) + FieldNodes(v, keys - {key})
  }

  lemma {:induction false} RowNodesSplit(rows: seq<Json>, m: nat)
    requires m < |rows|
    ensures RowNodes(rows) >= m + Nodes(rows[m]) + RowNodes(rows[m + 1..])
  {
    if m > 0 { RowNodesSplit(rows[1..], m - 1); }
  }

  lemma {:induction false} FieldNodesPick(v: Json, keys: set<string>, key: string)
    requires v.Obj? && keys <= v.fields.Keys && key in keys
    ensures FieldNodes(v, keys) == Nodes(v.fields[key]) + FieldNodes(v, keys - {key})
    decreases keys
  {
    hide Nodes;
    var first := Smallest(keys);
    if first != key {
      FieldNodesPick(v, keys - {first}, key);
      FieldNodesPick(v, keys - {key}, first);
      assert keys - {first} - {key} == keys - {key} - {first};
    }
  }

  lemma {:induction false} FieldNodesCount(v: Json, keys: set<string>)
    requires v.Obj? && keys <= v.fields.Keys
    ensures FieldNodes(v, keys) >= |keys|
    decreases keys
  {
    if keys != {} { FieldNodesCount(v, keys - {Smallest(keys)}); }
  }

  /** A diff never takes more operations than both values have parts. */
  lemma {:induction false} SizeBounds(previous: Json, next: Json)
    ensures EffortOf(previous, next).operations <= Nodes(previous) + Nodes(next)
    decreases next, 1, 0
  {
    if previous.Arr? && next.Arr? {
      assert next.items[0..] == next.items;
      if Keyed(previous.items) && Keyed(next.items) {
        KeyedSize(previous.items, next, 0);
      } else {
        assert previous.items[0..] == previous.items;
        PlainSize(previous, next, 0);
      }
    } else if previous.Obj? && next.Obj? {
      FieldsSize(previous, next, previous.fields.Keys, next.fields.Keys);
    }
    hide Keyed, KeyOf;
  }

  lemma {:induction false} KeyedSize(rest: seq<Json>, next: Json, index: nat)
    requires next.Arr? && index <= |next.items|
    ensures KeyedEffort(rest, next, index).operations <= RowNodes(rest) + RowNodes(next.items[index..])
    decreases next, 0, |next.items| - index
  {
    hide KeyedEffort, RowEffort, RowTaken, Nodes;
    KeyedUnfolds(rest, next, index);
    if index < |next.items| {
      var row := next.items[index];
      assert next.items[index..][0] == row && next.items[index..][1..] == next.items[index + 1..];
      RowSize(rest, row);
      KeyedSize(rest[RowTaken(rest, row)..], next, index + 1);
    }
  }

  lemma RowSize(rest: seq<Json>, row: Json)
    ensures RowEffort(rest, row).operations + RowNodes(rest[RowTaken(rest, row)..]) <= RowNodes(rest) + Nodes(row)
    decreases row, 2, 0
  {
    hide EffortOf, KeyOf, RowNodes, Nodes, FirstKey;
    var m := FirstKey(rest, KeyOf(row));
    if m < |rest| {
      SizeBounds(rest[m], row);
      RowNodesSplit(rest, m);
    }
    assert rest[0..] == rest;
  }

  lemma {:induction false} PlainSize(previous: Json, next: Json, index: nat)
    requires previous.Arr? && next.Arr? && index <= |previous.items| && index <= |next.items|
    ensures PlainEffort(previous, next, index).operations
         <= RowNodes(previous.items[index..]) + RowNodes(next.items[index..])
    decreases next, 0, |next.items| - index
  {
    var a, b := previous.items[index..], next.items[index..];
    if index < |previous.items| && index < |next.items| {
      assert a[0] == previous.items[index] && a[1..] == previous.items[index + 1..];
      assert b[0] == next.items[index] && b[1..] == next.items[index + 1..];
      SizeBounds(previous.items[index], next.items[index]);
      PlainSize(previous, next, index + 1);
      hide EffortOf, Nodes;
    }
  }

  /** The keys `left` of the old record pay for deletions, the others for changes. */
  lemma {:induction false} FieldsSize(previous: Json, next: Json, left: set<string>, keys: set<string>)
    requires previous.Obj? && next.Obj? && left <= previous.fields.Keys && keys <= next.fields.Keys
    requires forall key :: key in keys && key in previous.fields ==> key in left
    ensures FieldsEffort(previous, next, keys).operations + |left - keys|
         <= FieldNodes(previous, left) + FieldNodes(next, keys)
    decreases next, 0, |keys|
  {
    if keys == {} {
      FieldNodesCount(previous, left);
      assert left - keys == left;
    } else {
      var key := Smallest(keys);
      var rest := left - {key};
      assert rest - (keys - {key}) == left - keys;
      if key in previous.fields {
        FieldNodesPick(previous, left, key);
        SizeBounds(previous.fields[key], next.fields[key]);
      } else {
        assert rest == left;
      }
      FieldsSize(previous, next, rest, keys - {key});
      hide EffortOf, Nodes;
    }
  }

  // ---------------------------------------------------------------- witnesses

  /** `n` rows without keys. */
  function Flags(n: nat, b: bool): seq<Json> {
    seq(n, i requires 0 <= i < n => Bool(b))
  }

  function Flagged(n: nat, b: bool): Json {
    Obj(map["flags" := Arr(Flags(n, b))])
  }

  lemma FlagFlipped()
    ensures EffortOf(Bool(false), Bool(true)) == Both(ENTER, PUSH)
  {
  }

  lemma {:induction false} FlagsEffort(n: nat, index: nat)
    requires index <= n
    ensures PlainEffort(Arr(Flags(n, false)), Arr(Flags(n, true)), index).operations == n - index
    decreases n - index
  {
    hide EffortOf, PlainEffort;
    PlainUnfolds(Arr(Flags(n, false)), Arr(Flags(n, true)), index);
    if index < n {
      FlagFlipped();
      FlagsEffort(n, index + 1);
    }
  }

  /** Flipping `n` flags takes `n` operations, at paths of two steps. */
  lemma FlaggedEffort(n: nat)
    requires n > 0
    ensures EffortOf(Flagged(n, false), Flagged(n, true)).operations == n
    ensures Within(EffortOf(Flagged(n, false), Flagged(n, true)), 3)
  {
    FlagsEffort(n, 0);
    FlagsPaths(n);
    OneField("flags", Arr(Flags(n, false)), Arr(Flags(n, true)));
    assert KeyOf(Flags(n, false)[0]).None?;
    hide PlainEffort, Flags;
  }

  lemma FlagsPaths(n: nat)
    ensures DepthAtMost(Arr(Flags(n, false)), 1) && DepthAtMost(Arr(Flags(n, true)), 1)
    ensures Within(EffortOf(Arr(Flags(n, false)), Arr(Flags(n, true))), 2)
  {
    DepthBounds(Arr(Flags(n, false)), Arr(Flags(n, true)), 1);
  }

  lemma OneField(key: string, a: Json, b: Json)
    ensures EffortOf(Obj(map[key := a]), Obj(map[key := b])) == Both(ENTER, Below(EffortOf(a, b)))
  {
    var previous, next := Obj(map[key := a]), Obj(map[key := b]);
    RecordEffort(previous, next);
    hide EffortOf, Smallest;
    assert previous.fields.Keys - next.fields.Keys == {};
    assert next.fields.Keys == {key};
    FieldsPick(previous, next, {key}, key);
    assert {key} - {key} == {};
  }

  lemma AddedField(key: string)
    ensures EffortOf(Obj(map[]), Obj(map[key := Null])) == Effort(1, 1, 2)
  {
    var previous, next := Obj(map[]), Obj(map[key := Null]);
    RecordEffort(previous, next);
    hide EffortOf, Smallest;
    assert previous.fields.Keys - next.fields.Keys == {};
    assert next.fields.Keys == {key};
    FieldsPick(previous, next, {key}, key);
    assert {key} - {key} == {};
  }

  lemma RecordEffort(previous: Json, next: Json)
    requires previous.Obj? && next.Obj?
    ensures EffortOf(previous, next) ==
            Both(ENTER, Both(Deletions(previous.fields.Keys - next.fields.Keys),
                             FieldsEffort(previous, next, next.fields.Keys)))
  {
    hide FieldsEffort, Deletions;
  }

  /** A record inside `n` others. */
  function Nested(n: nat, core: map<string, Json>): Json {
    Obj(if n == 0 then core else map["in" := Nested(n - 1, core)])
  }

  /** Adding a key in a record enters that record's level and touches the next. */
  lemma {:induction false} NestedEffort(n: nat)
    ensures EffortOf(Nested(n, map[]), Nested(n, map["a" := Null])) == Effort(1, n + 1, n + 2)
  {
    hide EffortOf;
    if n == 0 {
      AddedField("a");
    } else {
      NestedEffort(n - 1);
      OneField("in", Nested(n - 1, map[]), Nested(n - 1, map["a" := Null]));
    }
  }
}
