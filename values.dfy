/**
 * Dynamically typed values as they travel through the system: query rows and bind parameters on
 * the TypeScript side, API payloads and rows on the Python side. An object keeps its fields in
 * insertion order, as a Python dict does. A JavaScript object lists integer-like keys first, in
 * ascending order; the model does not reorder them.
 */
module Values {
  import opened Base

  datatype Value =
    | Null
    | Bool(b: bool)
    | Num(n: int)
    | Str(s: string)
    | Arr(items: seq<Value>)
    | Obj(fields: seq<Field>)

  datatype Field = Field(key: string, value: Value)

  /** The value of the first field named `key` of an object; `None` when absent or not an object. */
  function Get(v: Value, key: string): (r: Option<Value>)
    ensures r.Some? ==> v.Obj? && exists i :: 0 <= i < |v.fields| && v.fields[i] == Field(key, r.value)
    ensures r.None? ==> !v.Obj? || forall i :: 0 <= i < |v.fields| ==> v.fields[i].key != key
  {
    if !v.Obj? then None else FieldOf(v.fields, key)
  }

  function FieldOf(fs: seq<Field>, key: string): (r: Option<Value>)
    ensures r.Some? ==> exists i :: 0 <= i < |fs| && fs[i] == Field(key, r.value)
    ensures r.None? ==> forall i :: 0 <= i < |fs| ==> fs[i].key != key
  {
    if fs == [] then None
    else if fs[0].key == key then Some(fs[0].value)
    else
      var r := FieldOf(fs[1..], key);
      if r.Some? then assert fs[1..][0] == fs[1]; r else r
  }

  /** The field names of an object, in order (`Object.keys`); none for any other value. */
  function Keys(v: Value): (r: seq<string>)
    ensures v.Obj? ==> |r| == |v.fields| && forall i :: 0 <= i < |r| ==> r[i] == v.fields[i].key
    ensures !v.Obj? ==> r == []
  {
    if v.Obj? then seq(|v.fields|, i requires 0 <= i < |v.fields| => v.fields[i].key) else []
  }

  /** JavaScript truthiness. */
  predicate JsTruthy(v: Value)
  {
    match v
    case Null => false
    case Bool(b) => b
    case Num(n) => n != 0
    case Str(s) => s != ""
    case _ => true
  }

  /** Python truthiness: empty lists and dicts are falsy too. */
  predicate PyTruthy(v: Value)
  {
    match v
    case Null => false
    case Bool(b) => b
    case Num(n) => n != 0
    case Str(s) => s != ""
    case Arr(items) => items != []
    case Obj(fields) => fields != []
  }

  /** Truthiness of a possibly missing attribute or key (a missing one is `undefined` / `None`). */
  predicate JsTruthyOpt(v: Option<Value>) { v.Some? && JsTruthy(v.value) }

  predicate PyTruthyOpt(v: Option<Value>) { v.Some? && PyTruthy(v.value) }
}
