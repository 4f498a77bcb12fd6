/**
  The value `json.loads` produces: null, booleans, numbers, strings, arrays
  and objects. Object keys are strings; a duplicated key keeps its last value,
  so an object is a map.
 */
module JsonValues {

  datatype Json =
    | JNull
    | JBool(b: bool)
    | JNum(n: int)
    | JStr(s: string)
    | JArray(items: seq<Json>)
    | JObject(fields: map<string, Json>)

  /** A JSON array holding the given strings, in order. */
  function StringArray(xs: seq<string>): (r: Json)
    ensures r.JArray? && |r.items| == |xs|
    ensures forall i :: 0 <= i < |xs| ==> r.items[i] == JStr(xs[i])
  {
    JArray(seq(|xs|, i requires 0 <= i < |xs| => JStr(xs[i])))
  }
}
