/** The part of Jackson's tree model (`JsonNode`) the services rely on: field
    and index lookup that answer "absent" instead of failing, `isArray`,
    `size` and `asText`. Numbers are integers; parsing and printing JSON text
    are oracles supplied by the callers. */
module JsonTree {
  import opened Wrappers
  import Numeric

  datatype Json =
    | JNull
    | JBool(b: bool)
    | JInt(n: int)
    | JString(s: string)
    | JArray(elems: seq<Json>)
    | JObject(fields: map<string, Json>)

  /** `node.get(field)`: the field of an object, absent for anything else. */
  function Get(j: Json, key: string): (r: Option<Json>)
    ensures r.Some? <==> j.JObject? && key in j.fields
    ensures r.Some? ==> r.value == j.fields[key]
  {
    if j.JObject? && key in j.fields then Some(j.fields[key]) else None
  }

  /** `node.get(index)`: the element of an array, absent for anything else. */
  function At(j: Json, i: int): (r: Option<Json>)
    ensures r.Some? <==> j.JArray? && 0 <= i < |j.elems|
    ensures r.Some? ==> r.value == j.elems[i]
  {
    if j.JArray? && 0 <= i < |j.elems| then Some(j.elems[i]) else None
  }

  predicate IsArray(j: Json) {
    j.JArray?
  }

  /** `node.asText()`: the text of a scalar, "null" for the JSON null and the
      empty string for containers. */
  function AsText(j: Json): string {
    match j
    case JNull => "null"
    case JBool(b) => if b then "true" else "false"
    case JInt(n) => Numeric.LongToString(n)
    case JString(s) => s
    case JArray(_) => ""
    case JObject(_) => ""
  }

  /** A Java `List<String>`, whose elements may be `null` (`None`). */
  type StringList = seq<Option<string>>

  /** Jackson's conversion of one array element to a Java `String` for a
      `List<String>`: scalars become their text, the JSON null becomes a
      `null` entry, and containers are refused. */
  function ElementAsString(j: Json): (r: Result<Option<string>>)
    ensures r == Ok(None) <==> j.JNull?
    ensures r.Err? <==> j.JArray? || j.JObject?
  {
    match j
    case JNull => Ok(None)
    case JBool(_) => Ok(Some(AsText(j)))
    case JInt(_) => Ok(Some(AsText(j)))
    case JString(s) => Ok(Some(s))
    case _ => Err("Cannot deserialize value of type `java.lang.String` from container")
  }

  /** `convertValue(arrayNode, List<String>)`. */
  function AsStringList(elems: seq<Json>): (r: Result<StringList>)
    ensures r.Ok? <==> forall i :: 0 <= i < |elems| ==> ElementAsString(elems[i]).Ok?
    ensures r.Ok? ==> |r.value| == |elems| && forall i :: 0 <= i < |elems| ==> r.value[i] == ElementAsString(elems[i]).value
  {
    if elems == [] then Ok([])
    else
      match ElementAsString(elems[0])
      case Err(m) => Err(m)
      case Ok(s) =>
        match AsStringList(elems[1..])
        case Err(m) => Err(m)
        case Ok(rest) => Ok([s] + rest)
  }

  /** A Java list of strings as a JSON array: each string as a JSON string,
      each `null` as the JSON null; `AsStringList` turns it back into the list. */
  function Strings(xs: StringList): (r: seq<Json>)
    ensures |r| == |xs|
    ensures forall i :: 0 <= i < |xs| ==> r[i] == if xs[i].Some? then JString(xs[i].value) else JNull
  {
    seq(|xs|, i requires 0 <= i < |xs| => if xs[i].Some? then JString(xs[i].value) else JNull)
  }

  lemma StringsRoundTrip(xs: StringList)
    ensures AsStringList(Strings(xs)) == Ok(xs)
  {
    var r := AsStringList(Strings(xs));
    assert r.Ok?;
    assert r.value == xs;
  }
}
