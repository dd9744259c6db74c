/** A JSON value as a tree: the shape `encoding/json` writes for a request
    body, before it becomes text. The text form is not modelled. */
module Json {
  import opened Wrappers

  datatype Json =
    | JNull
    | JBool(b: bool)
    | JNumber(n: int)
    | JString(s: string)
    | JArray(items: seq<Json>)
    | JObject(members: seq<(string, Json)>)

  /** The member names of an object, in the order they are written. */
  function Names(members: seq<(string, Json)>): (ks: seq<string>)
    ensures |ks| == |members|
  {
    if members == [] then [] else [members[0].0] + Names(members[1..])
  }

  /** The keys a JSON value emits: its member names if it is an object, none otherwise. */
  function Keys(j: Json): seq<string> {
    if j.JObject? then Names(j.members) else []
  }
}
