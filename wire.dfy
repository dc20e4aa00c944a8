/** JSON values as the transport hands them to the client (the result of
    `response.json()`), Python's truthiness on them, and the in-order decoding of a
    JSON list that both the processor and the `States` decoder perform. */
module Wire {
  import opened Errors

  /** A parsed JSON value. `JNull` is Python's None. */
  datatype Json =
    | JNull
    | JBool(b: bool)
    | JInt(n: int)
    | JReal(x: real)
    | JString(s: string)
    | JArray(items: seq<Json>)
    | JObject(fields: map<string, Json>)

  /** Query parameters and JSON objects alike: a dictionary from names to values. */
  type Params = map<string, Json>

  /** Python's `bool(x)` on a parsed JSON value: None, False, zero, and empty strings,
      lists and dictionaries are falsy; everything else is truthy. */
  predicate Truthy(j: Json) {
    match j
    case JNull => false
    case JBool(b) => b
    case JInt(n) => n != 0
    case JReal(x) => x != 0.0
    case JString(s) => |s| > 0
    case JArray(items) => |items| > 0
    case JObject(fields) => |fields| > 0
  }

  /** `[decode(x) for x in items]`: decodes every element, left to right; the first
      element whose decoding raises stops the whole list with that error. */
  function DecodeEach<T>(items: seq<Json>, decode: Json -> Result<T>): (r: Result<seq<T>>)
    ensures r.Success? <==> forall i :: 0 <= i < |items| ==> decode(items[i]).Success?
    ensures r.Success? ==>
              && |r.value| == |items|
              && forall i :: 0 <= i < |items| ==> r.value[i] == decode(items[i]).value
    ensures r.Failure? ==>
              exists k :: && 0 <= k < |items|
                          && decode(items[k]) == Failure(r.error)
                          && forall i :: 0 <= i < k ==> decode(items[i]).Success?
  {
    if items == [] then
      Success([])
    else
      match decode(items[0])
      case Failure(e) => Failure(e)
      case Success(v) =>
        match DecodeEach(items[1..], decode)
        case Failure(e) =>
          assert forall i :: 1 <= i < |items| ==> items[i] == items[1..][i - 1];
          Failure(e)
        case Success(vs) =>
          assert forall i :: 1 <= i < |items| ==> items[i] == items[1..][i - 1];
          Success([v] + vs)
  }
}
