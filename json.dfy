/** An already-parsed JSON tree, as Jackson's ObjectMapper.readTree returns it,
    together with the two node operations the consumer uses: `get(field)` and
    `asText()`. Parsing itself is not modelled. */
module Json {
  import opened Wrappers

  /** Jackson node kinds. Numbers are integral; floating-point nodes are not modelled. */
  datatype JsonNode =
    | JNull
    | JBool(b: bool)
    | JNumber(n: int)
    | JString(s: string)
    | JArray(items: seq<JsonNode>)
    | JObject(fields: map<string, JsonNode>)

  /** `node.get(name)`: the child of an object node, and Java null (None) for a
      missing field or for any node that is not an object. A field holding JSON
      null yields the null node, not Java null. */
  function Get(node: JsonNode, name: string): (r: Option<JsonNode>)
    ensures r.Some? <==> node.JObject? && name in node.fields
    ensures r.Some? ==> r.value == node.fields[name]
  {
    match node
    case JObject(fields) => if name in fields then Some(fields[name]) else None
    case _ => None
  }

  /** Decimal digit for 0..9. */
  function Digit(d: nat): char
    requires d < 10
  {
    "0123456789"[d]
  }

  predicate IsDigit(c: char) {
    '0' <= c <= '9'
  }

  /** Decimal text of a natural number, most significant digit first. */
  function NatText(n: nat): string
    decreases n
  {
    if n < 10 then [Digit(n)] else NatText(n / 10) + [Digit(n % 10)]
  }

  /** Java's `String.valueOf` for an integer. */
  function IntText(n: int): string {
    if n < 0 then "-" + NatText(-n) else NatText(n)
  }

  /** `node.asText()`: null gives "null", a text node its text, a boolean
      "true"/"false", a number its decimal text, containers the empty string. */
  function AsText(node: JsonNode): string {
    match node
    case JNull => "null"
    case JBool(b) => if b then "true" else "false"
    case JNumber(n) => IntText(n)
    case JString(s) => s
    case JArray(_) => ""
    case JObject(_) => ""
  }

  lemma {:induction false} NatTextShape(n: nat)
    ensures |NatText(n)| > 0
    ensures forall i :: 0 <= i < |NatText(n)| ==> IsDigit(NatText(n)[i])
  {
    if n >= 10 {
      NatTextShape(n / 10);
    }
  }

  /** The integer's text starts with a sign or a digit. */
  lemma IntTextHead(n: int)
    ensures |IntText(n)| > 0
    ensures IntText(n)[0] == '-' || IsDigit(IntText(n)[0])
  {
    if n < 0 { NatTextShape(-n); } else { NatTextShape(n); }
  }

  /** asText() equals "null" exactly for the JSON null node and for the JSON
      string "null": the two cannot be told apart by that test. */
  lemma AsTextNullIff(node: JsonNode)
    ensures AsText(node) == "null" <==> node == JNull || node == JString("null")
  {
    if node.JNumber? {
      IntTextHead(node.n);
      assert AsText(node)[0] != 'n';
    }
  }
}
