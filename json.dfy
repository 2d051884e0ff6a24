/**
 * JSON values as `json.loads` hands them to the server and as the server
 * builds its replies: objects keep their keys in order, and looking up a
 * key that occurs twice finds the later one, as `json.loads` keeps it.
 */
module Json {
  import opened Strings
  import opened Runtime

  datatype Json =
    | JNull
    | JBool(b: bool)
    | JInt(i: int)
    | JReal(r: real)
    | JString(s: string)
    | JArray(items: seq<Json>)
    | JObject(fields: seq<(string, Json)>)

  /** The value stored under `key`, the last occurrence winning. */
  function Lookup(fields: seq<(string, Json)>, key: string): (r: Option<Json>)
    ensures r.None? <==> forall k :: 0 <= k < |fields| ==> fields[k].0 != key
    ensures r.Some? ==> exists k :: (0 <= k < |fields| && fields[k] == (key, r.value) &&
      forall j :: k < j < |fields| ==> fields[j].0 != key)
    decreases |fields|
  {
    if fields == [] then None
    else if fields[|fields| - 1].0 == key then Some(fields[|fields| - 1].1)
    else Lookup(fields[..|fields| - 1], key)
  }

  /** `d.get(key, default)` on an object's fields. */
  function LookupOr(fields: seq<(string, Json)>, key: string, default: Json): Json {
    match Lookup(fields, key)
    case Some(v) => v
    case None => default
  }

  /** `type(v).__name__` of the Python value `json.loads` produces. */
  function TypeOf(v: Json): string {
    match v
    case JNull => "NoneType"
    case JBool(_) => "bool"
    case JInt(_) => "int"
    case JReal(_) => "float"
    case JString(_) => "str"
    case JArray(_) => "list"
    case JObject(_) => "dict"
  }

  /** `bool(v)` */
  predicate IsTruthy(v: Json) {
    match v
    case JNull => false
    case JBool(b) => b
    case JInt(i) => i != 0
    case JReal(r) => r != 0.0
    case JString(s) => s != ""
    case JArray(items) => items != []
    case JObject(fields) => fields != []
  }

  /** The message of the `AttributeError` for `name` on a value of type `typeName`. */
  function NoAttribute(typeName: string, name: string): string {
    "'" + typeName + "' object has no attribute '" + name + "'"
  }

  /** The error Python raises when a method is called on a value that lacks it. */
  function MissingMethod(v: Json, name: string): Exception {
    AttributeError(NoAttribute(TypeOf(v), name))
  }

  /**
   * `str(v)`, as an f-string interpolates it; the rendering of floats and
   * of lists and dictionaries is left to `floats` and `show`.
   */
  function PyStr(v: Json, floats: Floats, show: Json -> string): string {
    match v
    case JNull => "None"
    case JBool(b) => if b then "True" else "False"
    case JInt(i) => IntToString(i)
    case JReal(r) => floats.repr(r)
    case JString(s) => s
    case _ => show(v)
  }

  /** The later of two entries for one key is the one found. */
  lemma {:induction false} LookupLastWins(fields: seq<(string, Json)>, key: string, v: Json, rest: seq<(string, Json)>)
    requires forall k :: 0 <= k < |rest| ==> rest[k].0 != key
    ensures Lookup(fields + [(key, v)] + rest, key) == Some(v)
    decreases |rest|
  {
    var all := fields + [(key, v)] + rest;
    if rest == [] {
      assert all == fields + [(key, v)];
    } else {
      var shorter := rest[..|rest| - 1];
      assert all[..|all| - 1] == fields + [(key, v)] + shorter;
      assert all[|all| - 1] == rest[|rest| - 1];
      LookupLastWins(fields, key, v, shorter);
    }
  }
}
