/**
 * The parsed form of a response body, and the two lookups the connection makes on a
 * response object: `getString(name, default)` and `getBoolean(name, default)`. A lookup of a
 * member that is present but of another kind does not fall back to the default: the value
 * is asked for a string or a boolean it is not, which throws the unchecked
 * `UnsupportedOperationException`. Here that is a `Failure` carrying the offending value.
 */
module Json {
  import opened Wrappers

  datatype Value =
    | Null
    | Bool(b: bool)
    | Number(literal: string)
    | Str(s: string)
    | Array(items: seq<Value>)
    | Object(members: map<string, Value>)

  /** A JSON object: member names to values. */
  type JsonObject = map<string, Value>

  /** `getString(name, default)`; a `None` default stands for Java's `null`. */
  function GetString(o: JsonObject, name: string, default: Option<string>): (r: Result<Option<string>, Value>)
    ensures name !in o ==> r == Success(default)
    ensures name in o ==> (r.Success? <==> o[name].Str?)
    ensures name in o && r.Success? ==> r.value == Some(o[name].s)
    ensures name in o && r.Failure? ==> r.error == o[name]
  {
    if name !in o then Success(default)
    else match o[name]
      case Str(s) => Success(Some(s))
      case v => Failure(v)
  }

  /** `getBoolean(name, default)`. */
  function GetBoolean(o: JsonObject, name: string, default: bool): (r: Result<bool, Value>)
    ensures name !in o ==> r == Success(default)
    ensures name in o ==> (r.Success? <==> o[name].Bool?)
    ensures name in o && r.Success? ==> r.value == o[name].b
    ensures name in o && r.Failure? ==> r.error == o[name]
  {
    if name !in o then Success(default)
    else match o[name]
      case Bool(b) => Success(b)
      case v => Failure(v)
  }
}
