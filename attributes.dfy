/** Field-schema inference (utils/attributes.py): the QVariant type of a
    value from its class name, the ordered field map `fields_from_data`
    builds from rows of data, and the fields `merge_fields_in_provider`
    hands to a data provider. */
module Attributes {
  import opened Wrappers
  import opened Strings

  /** The three QVariant types of `class_to_type`. */
  datatype VariantType = Double | Int | String

  /** A Python value, known only by the name of its class. */
  datatype PyValue = PyValue(className: string)

  /** A row of data: a dict (its items in iteration order, each key given as
      `str(key)`), a list, set or tuple (its elements in iteration order), or
      anything else. */
  datatype Row =
    | DictRow(items: seq<(string, PyValue)>)
    | SequenceRow(elements: seq<PyValue>)
    | OtherRow(className: string)

  /** A `QgsField(name, type)`. */
  datatype Field = Field(name: string, typ: VariantType)

  /** The exceptions the inference raises. */
  datatype DataError = ValueError | NotImplementedError

  /** `class_to_type`, keyed by class name. */
  const ClassToType: map<string, VariantType> := map["float" := Double, "int" := Int, "str" := String]

  /** The table holds exactly the three class names. */
  lemma ClassToTypeTable()
    ensures ClassToType.Keys == {"float", "int", "str"}
    ensures ClassToType["float"] == Double && ClassToType["int"] == Int && ClassToType["str"] == String
  {
  }

  /** `variant_ctor_for_object`: float, int and str map to Double, Int and
      String by class name; any other class (None, dict, bytes, bool, ...)
      raises NotImplementedError. */
  function VariantCtorForObject(v: PyValue): (r: Result<VariantType, DataError>)
    ensures r.Success? <==> v.className in {"float", "int", "str"}
    ensures r.Failure? ==> r.error == NotImplementedError
    ensures v.className == "float" ==> r == Success(Double)
    ensures v.className == "int" ==> r == Success(Int)
    ensures v.className == "str" ==> r == Success(String)
  {
    if v.className in ClassToType then Success(ClassToType[v.className])
    else Failure(NotImplementedError)
  }

  /** The name an element at 0-based position `i` of a sequence row defines. */
  function FieldName(i: nat): string {
    "Field " + NatToString(i + 1)
  }

  lemma FieldNameInjective(i: nat, j: nat)
    requires FieldName(i) == FieldName(j)
    ensures i == j
  {
    assert NatToString(i + 1) == FieldName(i)[6..] == FieldName(j)[6..] == NatToString(j + 1);
    NatToStringInjective(i + 1, j + 1);
  }

  function Names(fields: seq<Field>): set<string> {
    set f | f in fields :: f.name
  }

  /** The names of a sequence of named items. */
  function ItemNames(items: seq<(string, PyValue)>): set<string> {
    set p | p in items :: p.0
  }

  /** The named items a sequence row yields: "Field 1", "Field 2", ... */
  function Numbered(elements: seq<PyValue>): (items: seq<(string, PyValue)>)
    ensures |items| == |elements|
    ensures forall i :: 0 <= i < |items| ==> items[i] == (FieldName(i), elements[i])
  {
    seq(|elements|, i requires 0 <= i < |elements| => (FieldName(i), elements[i]))
  }

  /** The named items a row contributes. */
  function NamedItems(row: Row): seq<(string, PyValue)> {
    match row
    case DictRow(items) => items
    case SequenceRow(elements) => Numbered(elements)
    case OtherRow(_) => []
  }

  /** One turn of the inner loop: a name already in the map is skipped
      without looking at its value; a new name is typed by its value. */
  function AddItem(fields: seq<Field>, item: (string, PyValue)): (r: Result<seq<Field>, DataError>)
    ensures item.0 in Names(fields) ==> r == Success(fields)
    ensures r.Success? ==> Names(r.value) == Names(fields) + {item.0}
    ensures r.Failure? <==> item.0 !in Names(fields) && VariantCtorForObject(item.1).Failure?
  {
    if item.0 in Names(fields) then Success(fields)
    else match VariantCtorForObject(item.1)
      case Success(t) => Success(fields + [Field(item.0, t)])
      case Failure(e) => Failure(e)
  }

  /** The inner loop over a row's items, from the map built so far. */
  function AddAll(fields: seq<Field>, items: seq<(string, PyValue)>): (r: Result<seq<Field>, DataError>)
    ensures r.Failure? ==> r.error == NotImplementedError
    ensures r.Success? ==> |fields| <= |r.value| && r.value[..|fields|] == fields
    decreases |items|
  {
    if |items| == 0 then Success(fields)
    else match AddAll(fields, items[..|items| - 1])
      case Success(fs) => AddItem(fs, items[|items| - 1])
      case Failure(e) => Failure(e)
  }

  /** The two results of `fields_from_data`: the field map (as the fields in
      insertion order, each keyed by its own name) and `are_dicts`. */
  datatype Inferred = Inferred(fields: seq<Field>, areDicts: Option<bool>)

  /** One turn of the outer loop: the row's shape is checked against
      `are_dicts` first, then its items are added. */
  function StepRow(acc: Inferred, row: Row): (r: Result<Inferred, DataError>)
    ensures row.OtherRow? ==> r == Failure(ValueError)
    ensures r.Success? ==> r.value.areDicts == Some(row.DictRow?)
    ensures r.Success? ==> |acc.fields| <= |r.value.fields| && r.value.fields[..|acc.fields|] == acc.fields
  {
    match row
    case DictRow(items) =>
      if acc.areDicts.Some? && !acc.areDicts.value then Failure(ValueError)
      else (match AddAll(acc.fields, items)
            case Success(fs) => Success(Inferred(fs, Some(true)))
            case Failure(e) => Failure(e))
    case SequenceRow(elements) =>
      if acc.areDicts.Some? && acc.areDicts.value then Failure(ValueError)
      else (match AddAll(acc.fields, Numbered(elements))
            case Success(fs) => Success(Inferred(fs, Some(false)))
            case Failure(e) => Failure(e))
    case OtherRow(_) => Failure(ValueError)
  }

  /** What `fields_from_data(data)` returns or raises. */
  function Infer(data: seq<Row>): (r: Result<Inferred, DataError>)
    ensures r.Success? ==> (r.value.areDicts.None? <==> |data| == 0)
    ensures r.Success? && |data| > 0 ==> r.value.areDicts == Some(data[|data| - 1].DictRow?)
    decreases |data|
  {
    if |data| == 0 then Success(Inferred([], None))
    else match Infer(data[..|data| - 1])
      case Success(acc) => StepRow(acc, data[|data| - 1])
      case Failure(e) => Failure(e)
  }

  lemma {:induction false} AddAllFailureSticks(fields: seq<Field>, items: seq<(string, PyValue)>, k: nat)
    requires k <= |items| && AddAll(fields, items[..k]).Failure?
    ensures AddAll(fields, items) == AddAll(fields, items[..k])
    decreases |items| - k
  {
    if k < |items| {
      assert items[..k + 1][..k] == items[..k];
      AddAllFailureSticks(fields, items, k + 1);
    } else {
      assert items[..k] == items;
    }
  }

  /** The first exception raised ends the inference: once a prefix of the
      rows fails, the whole data fails the same way. */
  lemma {:induction false} InferFailureSticks(data: seq<Row>, k: nat)
    requires k <= |data| && Infer(data[..k]).Failure?
    ensures Infer(data) == Infer(data[..k])
    decreases |data| - k
  {
    if k < |data| {
      assert data[..k + 1][..k] == data[..k];
      InferFailureSticks(data, k + 1);
    } else {
      assert data[..k] == data;
    }
  }

  lemma InferStep(data: seq<Row>, i: nat)
    requires i < |data|
    ensures Infer(data[..i + 1]) == match Infer(data[..i])
                                   case Success(acc) => StepRow(acc, data[i])
                                   case Failure(e) => Failure(e)
  {
    assert data[..i + 1][..i] == data[..i] && data[..i + 1][i] == data[i];
  }

  /** The inner loop of `fields_from_data` over one row's named items. */
  method AddItems(start: seq<Field>, items: seq<(string, PyValue)>) returns (r: Result<seq<Field>, DataError>)
    ensures r == AddAll(start, items)
  {
    var fields := start;
    for j := 0 to |items|
      invariant AddAll(start, items[..j]) == Success(fields)
    {
      var (name, value) := items[j];
      assert items[..j + 1][..j] == items[..j] && items[..j + 1][j] == (name, value);
      if name !in Names(fields) {
        var t := VariantCtorForObject(value);
        if t.Failure? {
          AddAllFailureSticks(start, items, j + 1);
          return Failure(t.error);
        }
        fields := fields + [Field(name, t.value)];
      }
    }
    assert items[..|items|] == items;
    r := Success(fields);
  }

  /** The body of the loop of `fields_from_data` for one row: the shape
      check against `are_dicts`, then the row's items. */
  method AddRow(fields: seq<Field>, areDicts: Option<bool>, row: Row) returns (r: Result<Inferred, DataError>)
    ensures r == StepRow(Inferred(fields, areDicts), row)
  {
    var shape := areDicts;
    var items: seq<(string, PyValue)>;
    if row.DictRow? {
      if shape.None? {
        shape := Some(true);
      } else if !shape.value {
        return Failure(ValueError);
      }
      items := row.items;
    } else if !row.SequenceRow? {
      return Failure(ValueError);
    } else {
      if shape.None? {
        shape := Some(false);
      } else if shape.value {
        return Failure(ValueError);
      }
      items := Numbered(row.elements);
    }
    assert shape == Some(row.DictRow?);
    var added := AddItems(fields, items);
    if added.Failure? {
      return Failure(added.error);
    }
    r := Success(Inferred(added.value, shape));
  }

  /** `fields_from_data`: one pass over the rows, checking each row's shape
      against `are_dicts`, then adding the names it has not seen yet. */
  method FieldsFromData(data: seq<Row>) returns (r: Result<Inferred, DataError>)
    ensures r == Infer(data)
  {
    var fields: seq<Field> := [];
    var areDicts: Option<bool> := None;
    for i := 0 to |data|
      invariant Infer(data[..i]) == Success(Inferred(fields, areDicts))
    {
      InferStep(data, i);
      var step := AddRow(fields, areDicts, data[i]);
      if step.Failure? {
        InferFailureSticks(data, i + 1);
        return Failure(step.error);
      }
      fields, areDicts := step.value.fields, step.value.areDicts;
    }
    assert data[..|data|] == data;
    r := Success(Inferred(fields, areDicts));
  }

  /** All rows are dicts, or all rows are lists/sets/tuples. */
  predicate Uniform(data: seq<Row>) {
    (forall i :: 0 <= i < |data| ==> data[i].DictRow?) ||
    (forall i :: 0 <= i < |data| ==> data[i].SequenceRow?)
  }

  /** All the named items of the rows, row after row. */
  function Named(data: seq<Row>): seq<(string, PyValue)>
    decreases |data|
  {
    if |data| == 0 then [] else Named(data[..|data| - 1]) + NamedItems(data[|data| - 1])
  }

  /** `are_dicts` as the data determines it. */
  function AreDictsOf(data: seq<Row>): (r: Option<bool>)
    ensures r.None? <==> |data| == 0
    ensures Uniform(data) ==> forall i :: 0 <= i < |data| ==> r == Some(data[i].DictRow?)
  {
    if |data| == 0 then None else Some(data[0].DictRow?)
  }

  /** The reference: on uniform data, the inference is one pass of the inner
      loop over all the rows' named items. */
  function Expected(data: seq<Row>): Result<Inferred, DataError> {
    match AddAll([], Named(data))
    case Success(fs) => Success(Inferred(fs, AreDictsOf(data)))
    case Failure(e) => Failure(e)
  }

  lemma {:induction false} AddAllConcat(fields: seq<Field>, a: seq<(string, PyValue)>, b: seq<(string, PyValue)>)
    ensures AddAll(fields, a + b) == match AddAll(fields, a)
                                     case Success(fs) => AddAll(fs, b)
                                     case Failure(e) => Failure(e)
    decreases |b|
  {
    if |b| == 0 {
      assert a + b == a;
    } else {
      assert (a + b)[..|a + b| - 1] == a + b[..|b| - 1];
      assert (a + b)[|a + b| - 1] == b[|b| - 1];
      AddAllConcat(fields, a, b[..|b| - 1]);
    }
  }

  /** Uniform data is inferred exactly as the reference says. */
  lemma {:induction false} InferUniform(data: seq<Row>)
    requires Uniform(data)
    ensures Infer(data) == Expected(data)
    decreases |data|
  {
    if |data| > 0 {
      var p, last := data[..|data| - 1], data[|data| - 1];
      assert Uniform(p);
      InferUniform(p);
      AddAllConcat([], Named(p), NamedItems(last));
      if |p| > 0 {
        assert p[0] == data[0];
      }
    }
  }

  /** Mixing shapes, or a row of another kind, is never accepted. */
  lemma {:induction false} InferSuccessIsUniform(data: seq<Row>)
    requires Infer(data).Success?
    ensures Uniform(data)
    ensures Infer(data).value.areDicts == AreDictsOf(data)
    decreases |data|
  {
    if |data| > 0 {
      var p := data[..|data| - 1];
      InferSuccessIsUniform(p);
      if |p| > 0 {
        assert p[0] == data[0];
        assert forall i :: 0 <= i < |p| ==> p[i] == data[i];
      }
    }
  }

  /** `fields_from_data` succeeds exactly on uniform data whose new names all
      have a supported type, and then returns the reference's fields;
      `are_dicts` is None for no rows, True for dict rows, False for
      sequence rows. */
  lemma InferCharacterised(data: seq<Row>)
    ensures Infer(data).Success? <==> Uniform(data) && AddAll([], Named(data)).Success?
    ensures Infer(data).Success? ==>
              && Infer(data).value.fields == AddAll([], Named(data)).value
              && (Infer(data).value.areDicts == None <==> |data| == 0)
              && (Infer(data).value.areDicts == Some(true) <==>
                    |data| > 0 && forall i :: 0 <= i < |data| ==> data[i].DictRow?)
              && (Infer(data).value.areDicts == Some(false) <==>
                    |data| > 0 && forall i :: 0 <= i < |data| ==> data[i].SequenceRow?)
  {
    if Infer(data).Success? {
      InferSuccessIsUniform(data);
    }
    if Uniform(data) {
      InferUniform(data);
    }
  }

  /** Mixing dict rows and sequence rows, in either order, or a row that is
      neither, raises ValueError at the first offending row. */
  lemma InferMixedIsValueError(data: seq<Row>, k: nat)
    requires k < |data| && Infer(data[..k]).Success?
    requires data[k].OtherRow? || (k > 0 && data[k].DictRow? != data[0].DictRow?)
    ensures Infer(data) == Failure(ValueError)
  {
    var p := data[..k];
    if !data[k].OtherRow? {
      InferSuccessIsUniform(p);
      assert p[0] == data[0];
      StepRowMismatch(Infer(p).value, data[k], data[0].DictRow?);
    }
    InferFailsAt(data, k);
  }

  /** A row whose step fails after a prefix that succeeds decides the
      result. */
  lemma {:induction false} InferFailsAt(data: seq<Row>, k: nat)
    requires k < |data| && Infer(data[..k]).Success?
    requires StepRow(Infer(data[..k]).value, data[k]).Failure?
    ensures Infer(data) == StepRow(Infer(data[..k]).value, data[k])
    decreases |data|
  {
    var init := data[..|data| - 1];
    if k == |data| - 1 {
      assert init == data[..k];
    } else {
      assert init[..k] == data[..k] && init[k] == data[k];
      InferFailsAt(init, k);
    }
  }

  /** A row of the other kind than the rows seen so far is refused. */
  lemma StepRowMismatch(acc: Inferred, row: Row, seenDicts: bool)
    requires acc.areDicts == Some(seenDicts) && !row.OtherRow? && row.DictRow? != seenDicts
    ensures StepRow(acc, row) == Failure(ValueError)
  {
    assert acc.areDicts.value == seenDicts;
  }

  /** Index of the first item named `n`. */
  function FirstIndex(items: seq<(string, PyValue)>, n: string): (p: nat)
    requires n in ItemNames(items)
    ensures p < |items| && items[p].0 == n
    ensures forall q :: 0 <= q < p ==> items[q].0 != n
    decreases |items|
  {
    var init := items[..|items| - 1];
    if n in ItemNames(init) then
      var p := FirstIndex(init, n);
      assert items[p] == init[p];
      p
    else
      assert forall q :: 0 <= q < |init| ==> items[q] == init[q] && init[q] in init;
      assert items[|items| - 1] in items;
      |items| - 1
  }

  lemma FirstIndexKept(init: seq<(string, PyValue)>, x: (string, PyValue), n: string)
    requires n in ItemNames(init)
    ensures n in ItemNames(init + [x]) && FirstIndex(init + [x], n) == FirstIndex(init, n)
  {
    assert (init + [x])[..|init|] == init;
    assert init[FirstIndex(init, n)] in init + [x];
  }

  lemma FirstIndexNew(init: seq<(string, PyValue)>, x: (string, PyValue))
    requires x.0 !in ItemNames(init)
    ensures x.0 in ItemNames(init + [x]) && FirstIndex(init + [x], x.0) == |init|
  {
    assert (init + [x])[..|init|] == init;
    assert (init + [x])[|init|] == x;
  }

  predicate DistinctNames(fs: seq<Field>) {
    forall i, j :: 0 <= i < j < |fs| ==> fs[i].name != fs[j].name
  }

  /** Each field is typed by the value at its name's first appearance. */
  predicate TypedByFirst(items: seq<(string, PyValue)>, fs: seq<Field>) {
    forall i :: 0 <= i < |fs| ==>
      fs[i].name in ItemNames(items) &&
      VariantCtorForObject(items[FirstIndex(items, fs[i].name)].1) == Success(fs[i].typ)
  }

  /** The fields come in the order their names first appear. */
  predicate OrderedByFirst(items: seq<(string, PyValue)>, fs: seq<Field>)
    requires Names(fs) <= ItemNames(items)
  {
    forall i, j :: 0 <= i < j < |fs| ==>
      assert fs[i] in fs && fs[j] in fs;
      FirstIndex(items, fs[i].name) < FirstIndex(items, fs[j].name)
  }

  /** What the inner loop keeps true of the fields it builds. */
  predicate BuiltFrom(items: seq<(string, PyValue)>, fs: seq<Field>) {
    && DistinctNames(fs)
    && Names(fs) == ItemNames(items)
    && TypedByFirst(items, fs)
    && OrderedByFirst(items, fs)
  }

  lemma FirstIndicesKept(init: seq<(string, PyValue)>, x: (string, PyValue), gs: seq<Field>)
    requires Names(gs) == ItemNames(init)
    ensures forall i :: 0 <= i < |gs| ==>
              gs[i].name in ItemNames(init + [x]) &&
              FirstIndex(init + [x], gs[i].name) == FirstIndex(init, gs[i].name)
  {
    forall i | 0 <= i < |gs|
      ensures gs[i].name in ItemNames(init + [x])
      ensures FirstIndex(init + [x], gs[i].name) == FirstIndex(init, gs[i].name)
    {
      assert gs[i] in gs;
      FirstIndexKept(init, x, gs[i].name);
    }
  }

  /** A name seen before leaves the fields as they are. */
  lemma BuiltFromSeen(init: seq<(string, PyValue)>, x: (string, PyValue), gs: seq<Field>)
    requires BuiltFrom(init, gs) && x.0 in Names(gs)
    ensures BuiltFrom(init + [x], gs)
  {
    var items := init + [x];
    assert ItemNames(items) == ItemNames(init) + {x.0};
    FirstIndicesKept(init, x, gs);
  }

  lemma TypedByFirstNew(init: seq<(string, PyValue)>, x: (string, PyValue), gs: seq<Field>, t: VariantType)
    requires Names(gs) == ItemNames(init) && TypedByFirst(init, gs) && x.0 !in Names(gs)
    requires VariantCtorForObject(x.1) == Success(t)
    ensures TypedByFirst(init + [x], gs + [Field(x.0, t)])
  {
    var items := init + [x];
    var fs := gs + [Field(x.0, t)];
    FirstIndicesKept(init, x, gs);
    FirstIndexNew(init, x);
    forall i | 0 <= i < |fs|
      ensures fs[i].name in ItemNames(items)
      ensures VariantCtorForObject(items[FirstIndex(items, fs[i].name)].1) == Success(fs[i].typ)
    {
      if i < |gs| {
        assert fs[i] == gs[i];
        assert items[FirstIndex(init, gs[i].name)] == init[FirstIndex(init, gs[i].name)];
      }
    }
  }

  lemma DistinctNamesNew(gs: seq<Field>, f: Field)
    requires DistinctNames(gs) && f.name !in Names(gs)
    ensures DistinctNames(gs + [f])
  {
    var fs := gs + [f];
    forall i, j | 0 <= i < j < |fs| ensures fs[i].name != fs[j].name {
      assert fs[i] == gs[i] && gs[i] in gs;
      if j < |gs| {
        assert fs[j] == gs[j];
      }
    }
  }

  lemma OrderedByFirstNew(init: seq<(string, PyValue)>, x: (string, PyValue), gs: seq<Field>, t: VariantType)
    requires Names(gs) == ItemNames(init) && OrderedByFirst(init, gs) && x.0 !in Names(gs)
    ensures Names(gs + [Field(x.0, t)]) <= ItemNames(init + [x])
    ensures OrderedByFirst(init + [x], gs + [Field(x.0, t)])
  {
    var items := init + [x];
    var fs := gs + [Field(x.0, t)];
    assert ItemNames(items) == ItemNames(init) + {x.0};
    assert Names(fs) == Names(gs) + {x.0};
    FirstIndicesKept(init, x, gs);
    FirstIndexNew(init, x);
    forall i, j | 0 <= i < j < |fs|
      ensures FirstIndex(items, fs[i].name) < FirstIndex(items, fs[j].name)
    {
      assert fs[i] == gs[i];
      assert gs[i] in gs;
      if j < |gs| {
        assert fs[j] == gs[j];
      }
    }
  }

  /** A new name is appended with its value's type. */
  lemma BuiltFromNew(init: seq<(string, PyValue)>, x: (string, PyValue), gs: seq<Field>, t: VariantType)
    requires BuiltFrom(init, gs) && x.0 !in Names(gs)
    requires VariantCtorForObject(x.1) == Success(t)
    ensures BuiltFrom(init + [x], gs + [Field(x.0, t)])
  {
    assert ItemNames(init + [x]) == ItemNames(init) + {x.0};
    assert Names(gs + [Field(x.0, t)]) == Names(gs) + {x.0};
    TypedByFirstNew(init, x, gs, t);
    DistinctNamesNew(gs, Field(x.0, t));
    OrderedByFirstNew(init, x, gs, t);
  }

  /** First type wins: the fields built from a sequence of named items have
      distinct names, one per name of the items, in first-appearance order,
      each typed by the value at its first appearance. */
  lemma {:induction false} AddAllFirstWins(items: seq<(string, PyValue)>)
    requires AddAll([], items).Success?
    ensures BuiltFrom(items, AddAll([], items).value)
    decreases |items|
  {
    if |items| > 0 {
      var init, x := items[..|items| - 1], items[|items| - 1];
      assert items == init + [x];
      AddAllFirstWins(init);
      var gs := AddAll([], init).value;
      if x.0 in Names(gs) {
        BuiltFromSeen(init, x, gs);
      } else {
        BuiltFromNew(init, x, gs, VariantCtorForObject(x.1).value);
      }
    }
  }

  /** The length of the longest sequence row. */
  function MaxLen(data: seq<Row>): nat
    decreases |data|
  {
    if |data| == 0 then 0
    else
      var m := MaxLen(data[..|data| - 1]);
      var n := |NamedItems(data[|data| - 1])|;
      if m < n then n else m
  }

  /** The field names a list of fields has when they are "Field 1" .. "Field n". */
  predicate NumberedNames(fields: seq<Field>) {
    forall i :: 0 <= i < |fields| ==> fields[i].name == FieldName(i)
  }

  /** Element `k` of a sequence row added to fields named "Field 1" ..
      "Field n", with n at least k. */
  lemma AddNumberedItem(gs: seq<Field>, k: nat, v: PyValue)
    requires NumberedNames(gs) && |gs| >= k
    requires AddItem(gs, (FieldName(k), v)).Success?
    ensures var fs := AddItem(gs, (FieldName(k), v)).value;
            NumberedNames(fs) && |fs| == if |gs| == k then k + 1 else |gs|
  {
    var name := FieldName(k);
    if k < |gs| {
      assert gs[k].name == name && gs[k] in gs;
    } else {
      forall f | f in gs ensures f.name != name {
        var i :| 0 <= i < |gs| && gs[i] == f;
        if f.name == name {
          FieldNameInjective(i, k);
        }
      }
    }
  }

  lemma {:induction false} AddNumbered(fields: seq<Field>, elements: seq<PyValue>)
    requires NumberedNames(fields) && AddAll(fields, Numbered(elements)).Success?
    ensures var fs := AddAll(fields, Numbered(elements)).value;
            NumberedNames(fs) && |fs| == if |fields| < |elements| then |elements| else |fields|
    decreases |elements|
  {
    if |elements| > 0 {
      var k := |elements| - 1;
      var init := elements[..k];
      var items := Numbered(elements);
      assert items[..k] == Numbered(init);
      assert items[k] == (FieldName(k), elements[k]);
      assert AddAll(fields, items) == match AddAll(fields, Numbered(init))
                                       case Success(gs) => AddItem(gs, (FieldName(k), elements[k]))
                                       case Failure(e) => Failure(e);
      AddNumbered(fields, init);
      AddNumberedItem(AddAll(fields, Numbered(init)).value, k, elements[k]);
    }
  }

  /** Sequence rows give fields "Field 1" .. "Field n" in that order, n the
      length of the longest row. */
  lemma {:induction false} InferSequenceNames(data: seq<Row>)
    requires forall i :: 0 <= i < |data| ==> data[i].SequenceRow?
    requires Infer(data).Success?
    ensures NumberedNames(Infer(data).value.fields)
    ensures |Infer(data).value.fields| == MaxLen(data)
    decreases |data|
  {
    if |data| > 0 {
      var p := data[..|data| - 1];
      assert Infer(p).Success?;
      InferSequenceNames(p);
      AddNumbered(Infer(p).value.fields, data[|data| - 1].elements);
    }
  }

  /** A field map, `OrderedDict` or `dict`, as its items in iteration
      order: a key and the field stored under it. */
  type FieldItems = seq<(string, Field)>

  /** A dict holds each key once. */
  predicate DistinctKeys(items: FieldItems) {
    forall i, j :: 0 <= i < j < |items| ==> items[i].0 != items[j].0
  }

  function Keys(items: FieldItems): set<string> {
    set p | p in items :: p.0
  }

  /** The items of `fields` whose keys the provider lacks, in the order of
      `fields`. */
  function MissingItems(fields: FieldItems, providerNames: set<string>): FieldItems
    decreases |fields|
  {
    if |fields| == 0 then []
    else
      var rest := MissingItems(fields[1..], providerNames);
      if fields[0].0 in providerNames then rest else [fields[0]] + rest
  }

  /** `MissingItems` keeps exactly the items whose key the provider lacks,
      so its keys are the missing ones, and it keeps the keys distinct. */
  lemma {:induction false} MissingItemsFilters(fields: FieldItems, providerNames: set<string>)
    ensures var r := MissingItems(fields, providerNames);
            && (forall p :: p in r <==> p in fields && p.0 !in providerNames)
            && Keys(r) == Keys(fields) - providerNames
            && (DistinctKeys(fields) ==> DistinctKeys(r))
    decreases |fields|
  {
    if |fields| > 0 {
      MissingItemsFilters(fields[1..], providerNames);
      assert forall p :: p in fields <==> p == fields[0] || p in fields[1..];
      if fields[0].0 !in providerNames {
        var rest := MissingItems(fields[1..], providerNames);
        assert DistinctKeys(fields) ==> fields[0].0 !in Keys(fields[1..]);
        assert DistinctKeys(fields) ==> fields[0].0 !in Keys(rest);
      }
    }
  }

  /** The fields stored under a sequence of items, in order. */
  function Values(items: FieldItems): (r: seq<Field>)
    ensures |r| == |items|
    ensures forall i :: 0 <= i < |items| ==> r[i] == items[i].1
  {
    seq(|items|, i requires 0 <= i < |items| => items[i].1)
  }

  /** Filtering keeps order: it distributes over concatenation. */
  lemma {:induction false} MissingItemsConcat(a: FieldItems, b: FieldItems, providerNames: set<string>)
    ensures MissingItems(a + b, providerNames)
            == MissingItems(a, providerNames) + MissingItems(b, providerNames)
    decreases |a|
  {
    if |a| > 0 {
      assert (a + b)[1..] == a[1..] + b;
      MissingItemsConcat(a[1..], b, providerNames);
    } else {
      assert a + b == b;
    }
  }

  /** A data provider, reduced to its fields and the calls made to it. */
  class DataProvider {
    var fields: seq<Field>
    /** The argument of every `addAttributes` call so far. */
    var addAttributesCalls: seq<seq<Field>>

    constructor (fields: seq<Field>)
      ensures this.fields == fields && addAttributesCalls == []
    {
      this.fields := fields;
      addAttributesCalls := [];
    }

    /** `addAttributes`: what QGIS then does with the fields is not modelled. */
    method AddAttributes(attributes: seq<Field>)
      modifies this`addAttributesCalls
      ensures addAttributesCalls == old(addAttributesCalls) + [attributes]
    {
      addAttributesCalls := addAttributesCalls + [attributes];
    }
  }

  /** A vector layer, reduced to the count of `updateFields` calls. */
  class VectorLayer {
    var updateFieldsCalls: nat

    constructor ()
      ensures updateFieldsCalls == 0
    {
      updateFieldsCalls := 0;
    }

    method UpdateFields()
      modifies this
      ensures updateFieldsCalls == old(updateFieldsCalls) + 1
    {
      updateFieldsCalls := updateFieldsCalls + 1;
    }
  }

  /** `merge_fields_in_provider`: exactly one `addAttributes` call, with the
      fields stored under the keys the provider has no field for (possibly
      none), and `updateFields` iff a layer is given. */
  method MergeFieldsInProvider(provider: DataProvider, fields: FieldItems, layer: VectorLayer?)
    requires DistinctKeys(fields)
    modifies provider`addAttributesCalls, layer
    ensures provider.addAttributesCalls
            == old(provider.addAttributesCalls) + [Values(MissingItems(fields, Names(provider.fields)))]
    ensures layer != null ==> layer.updateFieldsCalls == old(layer.updateFieldsCalls) + 1
  {
    var providerNames := Names(provider.fields);
    provider.AddAttributes(Values(MissingItems(fields, providerNames)));
    if layer != null {
      layer.UpdateFields();
    }
  }
}
