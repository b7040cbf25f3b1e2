/**
 * Decoded JSON, as the rdf package receives it from encoding/json: an object
 * is a `map[string]interface{}`, an array a `[]interface{}`, everything else a
 * scalar. An object is a sequence of members; the order of that sequence
 * stands for the (unspecified) order in which Go's `range` visits the map.
 */
module Json {
  import opened Wrappers

  type Member = (string, Json)

  datatype Json =
    | JMap(members: seq<Member>)
    | JArr(items: seq<Json>)
    | JStr(str: string)
    | JNum(num: int)     // a JSON number; its value is never inspected by the core
    | JBool(flag: bool)
    | JNull

  /** Go map keys are unique. */
  predicate DistinctKeys(obj: seq<Member>) {
    forall i, j :: 0 <= i < j < |obj| ==> obj[i].0 != obj[j].0
  }

  /** The position of `key` in an object: Go's `v, ok := obj[key]`. */
  function Find(obj: seq<Member>, key: string): (r: Option<nat>)
    ensures r.Some? ==> r.value < |obj| && obj[r.value].0 == key
    ensures r.Some? ==> forall j :: 0 <= j < r.value ==> obj[j].0 != key
    ensures r.None? ==> forall j :: 0 <= j < |obj| ==> obj[j].0 != key
  {
    if |obj| == 0 then None
    else if obj[0].0 == key then Some(0)
    else match Find(obj[1..], key)
      case Some(i) => Some(i + 1)
      case None => None
  }
}
