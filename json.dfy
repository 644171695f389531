/** Parsed JSON documents, as `json.load` hands them to Python. */
module JsonValue {

  /**
   * A JSON value. Objects are Python dicts keyed by string; numbers are
   * integers only (JSON floats are not modelled).
   */
  datatype Json =
    | JNull
    | JBool(b: bool)
    | JNumber(n: int)
    | JString(s: string)
    | JArray(items: seq<Json>)
    | JObject(fields: map<string, Json>)

  /** A JSON array of strings, as Python writes a `list` of `str`. */
  function StringArray(ss: seq<string>): (r: Json)
    ensures r.JArray? && |r.items| == |ss|
    ensures forall i :: 0 <= i < |ss| ==> r.items[i] == JString(ss[i])
  {
    JArray(seq(|ss|, i requires 0 <= i < |ss| => JString(ss[i])))
  }
}
