/**
  The JSON boundary of the engine (domain/json_compat.py): Python values coming from a request or
  from a JSONB column are frozen into immutable domain values, and thawed back before they are stored.
  */
module JsonCompat {
  import opened Wrappers

  datatype PyFloat = Finite(value: real) | NaN | PositiveInfinity | NegativeInfinity

  /** A dictionary key; only string keys are legal in JSON. */
  datatype PyKey = StrKey(name: string) | ForeignKey(hash: int)

  /** The Python values freeze_json and thaw_json tell apart. PyTuple and PyProxy are the frozen forms
      of PyList and PyDict; PyForeign stands for bytes, datetimes and any other object. */
  datatype PyValue =
    | PyNone
    | PyBool(flag: bool)
    | PyInt(number: int)
    | PyFloatValue(float: PyFloat)
    | PyStr(text: string)
    | PyList(items: seq<PyValue>)
    | PyTuple(items: seq<PyValue>)
    | PyDict(entries: map<PyKey, PyValue>)
    | PyProxy(entries: map<PyKey, PyValue>)
    | PyForeign(hash: int)
  {
    predicate IsArray() { PyList? || PyTuple? }
    predicate IsMapping() { PyDict? || PyProxy? }
  }

  /** A domain JsonObject: parameter names mapped to values. */
  type JsonObject = map<string, PyValue>

  // ----------------------------------------------------------------------------------------- values

  /** What freeze_json and thaw_json accept: finite numbers, string keys, and nothing foreign, at any depth. */
  predicate Compatible(v: PyValue) {
    if v.IsArray() then forall i | 0 <= i < |v.items| :: Compatible(v.items[i])
    else if v.IsMapping() then forall k | k in v.entries :: k.StrKey? && Compatible(v.entries[k])
    else !v.PyForeign? && (v.PyFloatValue? ==> v.float.Finite?)
  }

  /** Lists and dictionaries become their immutable forms, at every depth. */
  function Frozen(v: PyValue): (r: PyValue)
    ensures v.IsArray() ==> r.PyTuple? && |r.items| == |v.items|
    ensures v.IsMapping() ==> r.PyProxy? && r.entries.Keys == v.entries.Keys
  {
    if v.IsArray() then PyTuple(seq(|v.items|, i requires 0 <= i < |v.items| => Frozen(v.items[i])))
    else if v.IsMapping() then PyProxy(map k | k in v.entries :: Frozen(v.entries[k]))
    else v
  }

  function Thawed(v: PyValue): (r: PyValue)
    ensures v.IsArray() ==> r.PyList? && |r.items| == |v.items|
    ensures v.IsMapping() ==> r.PyDict? && r.entries.Keys == v.entries.Keys
  {
    if v.IsArray() then PyList(seq(|v.items|, i requires 0 <= i < |v.items| => Thawed(v.items[i])))
    else if v.IsMapping() then PyDict(map k | k in v.entries :: Thawed(v.entries[k]))
    else v
  }

  /** Python's == between the thawed forms of two values: True equals 1, and 1 equals 1.0. */
  predicate PyEqual(x: PyValue, y: PyValue) {
    PyCanon(x) == PyCanon(y)
  }

  function PyCanon(v: PyValue): PyValue {
    if v.IsArray() then PyList(seq(|v.items|, i requires 0 <= i < |v.items| => PyCanon(v.items[i])))
    else if v.IsMapping() then PyDict(map k | k in v.entries :: PyCanon(v.entries[k]))
    else if v.PyBool? then PyFloatValue(Finite(if v.flag then 1.0 else 0.0))
    else if v.PyInt? then PyFloatValue(Finite(v.number as real))
    else v
  }

  // ---------------------------------------------------------------------------------- the operations

  /** ValueError for a number that is not finite, TypeError for a foreign key or value. */
  datatype JsonResult = Json(value: PyValue) | ValueError | TypeError

  /** The value holds, at some depth, what the error complains about. */
  predicate Offends(v: PyValue, error: JsonResult) {
    if v.IsArray() then exists i | 0 <= i < |v.items| :: Offends(v.items[i], error)
    else if v.IsMapping() then
      exists k | k in v.entries :: (error.TypeError? && k.ForeignKey?) || Offends(v.entries[k], error)
    else (error.ValueError? && v.PyFloatValue? && !v.float.Finite?) || (error.TypeError? && v.PyForeign?)
  }

  method FreezeJson(v: PyValue) returns (r: JsonResult)
    ensures r.Json? <==> Compatible(v)
    ensures if r.Json? then r.value == Frozen(v) else Offends(v, r)
    decreases v
  {
    if v.PyFloatValue? && !v.float.Finite? {
      r := ValueError;
    } else if v.IsArray() {
      var frozen: seq<PyValue> := [];
      for i := 0 to |v.items|
        invariant |frozen| == i
        invariant forall j | 0 <= j < i :: Compatible(v.items[j]) && frozen[j] == Frozen(v.items[j])
      {
        var item := FreezeJson(v.items[i]);
        if !item.Json? { return item; }
        frozen := frozen + [item.value];
      }
      r := Json(PyTuple(frozen));
    } else if v.IsMapping() {
      var frozen: map<PyKey, PyValue> := map[];
      var todo := v.entries.Keys;
      while todo != {}
        invariant todo <= v.entries.Keys && frozen.Keys == v.entries.Keys - todo
        invariant forall k | k in frozen ::
                    k.StrKey? && Compatible(v.entries[k]) && frozen[k] == Frozen(v.entries[k])
        decreases todo
      {
        var k :| k in todo;
        if !k.StrKey? { return TypeError; }
        var entry := FreezeJson(v.entries[k]);
        if !entry.Json? { return entry; }
        frozen, todo := frozen[k := entry.value], todo - {k};
      }
      r := Json(PyProxy(frozen));
    } else if v.PyForeign? {
      r := TypeError;
    } else {
      r := Json(v);
    }
  }

  method ThawJson(v: PyValue) returns (r: JsonResult)
    ensures r.Json? <==> Compatible(v)
    ensures if r.Json? then r.value == Thawed(v) else Offends(v, r)
    decreases v
  {
    if v.PyFloatValue? && !v.float.Finite? {
      r := ValueError;
    } else if v.IsArray() {
      var thawed: seq<PyValue> := [];
      for i := 0 to |v.items|
        invariant |thawed| == i
        invariant forall j | 0 <= j < i :: Compatible(v.items[j]) && thawed[j] == Thawed(v.items[j])
      {
        var item := ThawJson(v.items[i]);
        if !item.Json? { return item; }
        thawed := thawed + [item.value];
      }
      r := Json(PyList(thawed));
    } else if v.IsMapping() {
      var thawed: map<PyKey, PyValue> := map[];
      var todo := v.entries.Keys;
      while todo != {}
        invariant todo <= v.entries.Keys && thawed.Keys == v.entries.Keys - todo
        invariant forall k | k in thawed ::
                    k.StrKey? && Compatible(v.entries[k]) && thawed[k] == Thawed(v.entries[k])
        decreases todo
      {
        var k :| k in todo;
        if !k.StrKey? { return TypeError; }
        var entry := ThawJson(v.entries[k]);
        if !entry.Json? { return entry; }
        thawed, todo := thawed[k := entry.value], todo - {k};
      }
      r := Json(PyDict(thawed));
    } else if v.PyForeign? {
      r := TypeError;
    } else {
      r := Json(v);
    }
  }

  // ------------------------------------------------------------------------------------ what it means

  /** No mutable container at any depth. */
  predicate IsFrozen(v: PyValue) {
    if v.IsArray() then v.PyTuple? && forall i | 0 <= i < |v.items| :: IsFrozen(v.items[i])
    else if v.IsMapping() then v.PyProxy? && forall k | k in v.entries :: IsFrozen(v.entries[k])
    else true
  }

  /** Freezing freezes, and leaves a frozen value as it is. */
  lemma {:induction false} FreezingFreezes(v: PyValue)
    ensures IsFrozen(Frozen(v))
    ensures IsFrozen(v) ==> Frozen(v) == v
    decreases v
  {
    if v.IsArray() {
      forall i | 0 <= i < |v.items| { FreezingFreezes(v.items[i]); }
    } else if v.IsMapping() {
      forall k | k in v.entries { FreezingFreezes(v.entries[k]); }
    }
  }

  /** Freezing undoes thawing. */
  lemma {:induction false} FreezeAfterThaw(v: PyValue)
    ensures Frozen(Thawed(v)) == Frozen(v)
    decreases v
  {
    if v.IsArray() {
      forall i | 0 <= i < |v.items| { FreezeAfterThaw(v.items[i]); }
    } else if v.IsMapping() {
      forall k | k in v.entries { FreezeAfterThaw(v.entries[k]); }
    }
  }

  /** Thawing undoes freezing. */
  lemma {:induction false} ThawAfterFreeze(v: PyValue)
    ensures Thawed(Frozen(v)) == Thawed(v)
    decreases v
  {
    if v.IsArray() {
      forall i | 0 <= i < |v.items| { ThawAfterFreeze(v.items[i]); }
    } else if v.IsMapping() {
      forall k | k in v.entries { ThawAfterFreeze(v.entries[k]); }
    }
  }

  /** Freezing neither adds nor removes an offence. */
  lemma {:induction false} FreezingKeepsCompatibility(v: PyValue)
    ensures Compatible(Frozen(v)) == Compatible(v)
    decreases v
  {
    if v.IsArray() {
      forall i | 0 <= i < |v.items| ensures Compatible(Frozen(v).items[i]) == Compatible(v.items[i]) {
        FreezingKeepsCompatibility(v.items[i]);
      }
    } else if v.IsMapping() {
      forall k | k in v.entries ensures Compatible(Frozen(v).entries[k]) == Compatible(v.entries[k]) {
        FreezingKeepsCompatibility(v.entries[k]);
      }
    }
  }

  /** Nor does thawing. */
  lemma {:induction false} ThawingKeepsCompatibility(v: PyValue)
    ensures Compatible(Thawed(v)) == Compatible(v)
    decreases v
  {
    if v.IsArray() {
      forall i | 0 <= i < |v.items| ensures Compatible(Thawed(v).items[i]) == Compatible(v.items[i]) {
        ThawingKeepsCompatibility(v.items[i]);
      }
    } else if v.IsMapping() {
      forall k | k in v.entries ensures Compatible(Thawed(v).entries[k]) == Compatible(v.entries[k]) {
        ThawingKeepsCompatibility(v.entries[k]);
      }
    }
  }

  /** Freezing does not change what the value is equal to. */
  lemma {:induction false} FreezingKeepsValue(v: PyValue)
    ensures PyEqual(Frozen(v), v)
    decreases v
  {
    if v.IsArray() {
      forall i | 0 <= i < |v.items| ensures PyCanon(Frozen(v).items[i]) == PyCanon(v.items[i]) {
        FreezingKeepsValue(v.items[i]);
      }
    } else if v.IsMapping() {
      forall k | k in v.entries ensures PyCanon(Frozen(v).entries[k]) == PyCanon(v.entries[k]) {
        FreezingKeepsValue(v.entries[k]);
      }
    }
  }

  /** Nor does thawing. */
  lemma {:induction false} ThawingKeepsValue(v: PyValue)
    ensures PyEqual(Thawed(v), v)
    decreases v
  {
    if v.IsArray() {
      forall i | 0 <= i < |v.items| ensures PyCanon(Thawed(v).items[i]) == PyCanon(v.items[i]) {
        ThawingKeepsValue(v.items[i]);
      }
    } else if v.IsMapping() {
      forall k | k in v.entries ensures PyCanon(Thawed(v).entries[k]) == PyCanon(v.entries[k]) {
        ThawingKeepsValue(v.entries[k]);
      }
    }
  }

  /** A value that offends is not compatible, so the errors are raised for nothing else. */
  lemma {:induction false} OffenceRejects(v: PyValue, error: JsonResult)
    requires Offends(v, error)
    ensures !Compatible(v)
    decreases v
  {
    if v.IsArray() {
      var i :| 0 <= i < |v.items| && Offends(v.items[i], error);
      OffenceRejects(v.items[i], error);
    } else if v.IsMapping() {
      var k :| k in v.entries && ((error.TypeError? && k.ForeignKey?) || Offends(v.entries[k], error));
      if k.StrKey? { OffenceRejects(v.entries[k], error); }
    }
  }

  /** What survives a round trip through the database: a frozen value, thawed for storage and frozen on reading. */
  lemma StoredAndRead(v: PyValue)
    requires IsFrozen(v)
    ensures Frozen(Thawed(v)) == v
  {
    FreezeAfterThaw(v);
    FreezingFreezes(v);
  }
}
