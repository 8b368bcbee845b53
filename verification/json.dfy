/** JSON values as `JSON.parse` produces them. An object is its list of
    (key, value) fields in property order; a parsed object has unique keys. */
module Json {
  import opened Common

  datatype Json =
    | JNull
    | JBool(b: bool)
    | JNum(n: real)
    | JStr(s: string)
    | JArr(items: seq<Json>)
    | JObj(fields: seq<(string, Json)>)

  /** The value stored under `key`, if the object has that property. */
  function Get(fields: seq<(string, Json)>, key: string): (r: Option<Json>)
    ensures r.Some? <==> exists i :: 0 <= i < |fields| && fields[i].0 == key
    ensures r.Some? ==> exists i :: 0 <= i < |fields| && fields[i] == (key, r.value)
  {
    if fields == [] then None
    else if fields[0].0 == key then Some(fields[0].1)
    else
      var r := Get(fields[1..], key);
      assert forall i :: 0 < i < |fields| ==> fields[i] == fields[1..][i - 1];
      r
  }

  /** `value.key` for a value that is not null: a property of an object, and
      `undefined` (None) on any other value. */
  function Prop(value: Json, key: string): Option<Json> {
    if value.JObj? then Get(value.fields, key) else None
  }

  /** JavaScript truthiness of a parsed value (NaN cannot come out of JSON.parse). */
  predicate Truthy(value: Json) {
    match value
    case JNull => false
    case JBool(b) => b
    case JNum(n) => n != 0.0
    case JStr(s) => s != []
    case JArr(_) => true
    case JObj(_) => true
  }

  /** Truthiness of a property that may be missing (`undefined` is falsy). */
  predicate TruthyOpt(value: Option<Json>) {
    value.Some? && Truthy(value.value)
  }

  /** `{...obj, [key]: value}`: an existing property keeps its place and takes
      the new value; a new property goes last. */
  function SetField(fields: seq<(string, Json)>, key: string, value: Json): (r: seq<(string, Json)>)
    ensures Get(r, key) == Some(value)
  {
    if fields == [] then [(key, value)]
    else if fields[0].0 == key then [(key, value)] + fields[1..]
    else [fields[0]] + SetField(fields[1..], key, value)
  }

  /** Setting one property leaves every other property as it was. */
  lemma {:induction false} SetFieldOther(fields: seq<(string, Json)>, key: string, value: Json, other: string)
    requires other != key
    ensures Get(SetField(fields, key, value), other) == Get(fields, other)
  {
    if fields != [] && fields[0].0 != key {
      SetFieldOther(fields[1..], key, value, other);
    }
  }

  /** The items of an array or string paired with their index keys
      `"0"`, `"1"`, … */
  function IndexKeys<T>(xs: seq<T>, f: T -> Json): (r: seq<(string, Json)>)
    ensures |r| == |xs|
    ensures forall i :: 0 <= i < |xs| ==> r[i] == (NatToString(i), f(xs[i]))
  {
    seq(|xs|, i requires 0 <= i < |xs| => (NatToString(i), f(xs[i])))
  }

  /** Setting a property to the value it already has changes nothing. */
  lemma {:induction false} SetFieldNoChange(fields: seq<(string, Json)>, key: string, value: Json)
    requires Get(fields, key) == Some(value)
    ensures SetField(fields, key, value) == fields
  {
    if fields != [] && fields[0].0 != key {
      SetFieldNoChange(fields[1..], key, value);
    }
  }

  /** `Object.entries(value)` for a value that is not null: the fields of
      an object, index keys of an array or string, nothing for a number or
      boolean; null is listed as having no entries. */
  function Entries(value: Json): (r: seq<(string, Json)>)
    ensures value.JObj? ==> r == value.fields
    ensures value.JNull? || value.JBool? || value.JNum? ==> r == []
    ensures value.JArr? ==> |r| == |value.items| && forall i :: 0 <= i < |r| ==> r[i] == (NatToString(i), value.items[i])
  {
    match value
    case JNull => []
    case JBool(_) => []
    case JNum(_) => []
    case JStr(s) => IndexKeys(s, (c: char) => JStr([c]))
    case JArr(items) => IndexKeys(items, (x: Json) => x)
    case JObj(fields) => fields
  }
}
