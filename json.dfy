/** The part of Jackson's JsonNode tree the services read: field lookup, array access and
    the lenient asText/asDouble conversions. Turning text into a tree (readTree) is not
    modelled; callers receive it as a function. */
module JsonTree {
  import opened Wrappers

  /** A JSON value. A number keeps Jackson's textual rendering next to its value; an
      object maps each field name to its value (the last duplicate wins, as in
      ObjectNode). */
  datatype Json =
    | JNull
    | JBool(b: bool)
    | JNum(value: real, text: string)
    | JStr(s: string)
    | JArr(items: seq<Json>)
    | JObj(fields: map<string, Json>)

  /** Jackson's lenient parse of a text node as a number (0.0 when it is not one). */
  type NumberParser = string -> real

  /** JsonNode.has(name): only an object has fields; a field whose value is null counts. */
  predicate Has(node: Json, name: string) {
    node.JObj? && name in node.fields
  }

  /** JsonNode.get(name): None plays the Java null returned for a missing field. */
  function Get(node: Json, name: string): (r: Option<Json>)
    ensures r.Some? <==> Has(node, name)
    ensures r.Some? ==> r.value == node.fields[name]
  {
    if Has(node, name) then Some(node.fields[name]) else None
  }

  /** JsonNode.size(): elements of an array, fields of an object, 0 otherwise. */
  function Size(node: Json): nat {
    match node
    case JArr(items) => |items|
    case JObj(fields) => |fields|
    case _ => 0
  }

  /** JsonNode.get(index): only an array has indexed elements. */
  function At(node: Json, i: nat): (r: Option<Json>)
    ensures r.Some? <==> node.JArr? && i < |node.items|
    ensures r.Some? ==> r.value == node.items[i]
  {
    if node.JArr? && i < |node.items| then Some(node.items[i]) else None
  }

  /** JsonNode.asText(). */
  function AsText(node: Json): string {
    match node
    case JNull => "null"
    case JBool(b) => if b then "true" else "false"
    case JNum(_, text) => text
    case JStr(s) => s
    case JArr(_) => ""
    case JObj(_) => ""
  }

  /** JsonNode.asDouble(). */
  function AsDouble(node: Json, parseNumber: NumberParser): real {
    match node
    case JNum(v, _) => v
    case JStr(s) => parseNumber(s)
    case JBool(b) => if b then 1.0 else 0.0
    case _ => 0.0
  }
}
