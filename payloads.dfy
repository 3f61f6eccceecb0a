/** What the network hands back to the client, as the client sees it. */
module Payloads {
  import opened Outcomes
  import Decimal

  /** A value as json_decode yields it: objects are stdClass, arrays are PHP arrays; floats are not modelled. */
  datatype Json =
    | JNull
    | JBool(b: bool)
    | JInt(i: int)
    | JString(s: string)
    | JArray(items: seq<Json>)
    | JObject(fields: map<string, Json>)

  /**
   * One curl exchange: the HTTP code (0 when no response arrived), curl_errno (0 when none),
   * curl_error, the body, and the value json_decode gives for that body.
   */
  datatype Reply = Reply(httpCode: int, errno: int, error: string, body: string, json: Json)

  /** A /jobs/job node of the building-jobs XML document, by its name element. */
  datatype XmlJob = XmlJob(name: string)

  /** $obj->key on a decoded object: a missing property reads as null. */
  function Prop(fields: map<string, Json>, key: string): Json {
    if key in fields then fields[key] else JNull
  }

  /** $v->key on any value: on a non-object it reads as null. */
  function Member(v: Json, key: string): Json {
    if v.JObject? then Prop(v.fields, key) else JNull
  }

  /** What foreach visits in a decoded list; null and scalars give nothing. */
  function Items(v: Json): seq<Json> {
    if v.JArray? then v.items else []
  }

  /**
   * A decoded scalar as PHP turns it into a string: a string as it is, an integer in decimal, true
   * as "1", false and null (a missing value) as "". Lists and objects are not scalars and read as "".
   */
  function Text(v: Json): (r: string)
    ensures v.JString? ==> r == v.s
    ensures v.JInt? ==> Decimal.ParseInt(r) == Some(v.i)
    ensures v.JBool? ==> (r == "1" <==> v.b) && (r == "" <==> !v.b)
    ensures v.JNull? ==> r == ""
  {
    match v
    case JString(s) => s
    case JInt(i) => Decimal.IntToStringRoundTrip(i); Decimal.IntToString(i)
    case JBool(b) => if b then "1" else ""
    case _ => ""
  }
}
