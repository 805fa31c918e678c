/** What both versions of the inventory client share: the product record the
    backend returns, the JSON values the client sends, the requests it issues
    (kept as a log), the outcomes the network can deliver, and the stock-level
    badge every product row shows. */
module Inventory {
  import opened JsBuiltins

  type Id = string

  /** One inventory line as the backend returns it. */
  datatype Product = Product(id: Id, name: string, sku: string, quantity: int, description: string)

  /** The product properties the edit modal is opened on: the product rows
      offer buttons for the quantity, the description and the SKU. */
  datatype Field = Sku | Quantity | Description

  /** The JSON key of a field. */
  function FieldKey(f: Field): (key: string)
    ensures key != []
  {
    match f
    case Sku => "sku"
    case Quantity => "quantity"
    case Description => "description"
  }

  lemma FieldKeyInjective(f: Field, g: Field)
    ensures FieldKey(f) == FieldKey(g) <==> f == g
  {
  }

  /** The JSON values the client puts in a request body. JSON.stringify writes
      NaN as null, so an unparsable quantity travels as JNull. */
  datatype JsonValue = JText(text: string) | JNumber(number: int) | JNull

  /** A JSON object, its members in the order JSON.stringify writes them. */
  type JsonObject = seq<(string, JsonValue)>

  /** The value a parseInt result becomes in a request body. */
  function NumberValue(n: Option<int>): JsonValue {
    match n
    case Some(k) => JNumber(k)
    case None => JNull
  }

  /** A quantity text holding the decimal rendering of `n`, possibly with
      whitespace before it and non-digit text after it, is sent as `n`. */
  lemma NumberValueOfDecimal(ws: string, n: int, rest: string)
    requires AllWhitespace(ws) && (rest == [] || !IsDigit(rest[0]))
    ensures NumberValue(ParseInt(ws + DecimalString(n) + rest)) == JNumber(n)
  {
    ParseIntReadsDecimal(ws, n, rest);
  }

  /** A blank quantity text (empty or whitespace only) is sent as null. */
  lemma NumberValueOfBlank(ws: string)
    requires AllWhitespace(ws)
    ensures NumberValue(ParseInt(ws)) == JNull
  {
    assert LeadingWhitespace(ws) == |ws|;
    assert TrimStart(ws) == [];
  }

  /** The keys of a JSON object, in order. */
  function Keys(body: JsonObject): (keys: seq<string>)
    ensures |keys| == |body|
    ensures forall i :: 0 <= i < |body| ==> keys[i] == body[i].0
  {
    if body == [] then [] else [body[0].0] + Keys(body[1..])
  }

  /** The value under `key`, if the object has that key. */
  function Lookup(body: JsonObject, key: string): (v: Option<JsonValue>)
    ensures v.Some? <==> key in Keys(body)
  {
    if body == [] then None
    else if body[0].0 == key then Some(body[0].1)
    else Lookup(body[1..], key)
  }

  /** A text value that is non-blank and already trimmed. */
  predicate Normalised(v: JsonValue) {
    v.JText? && v.text != "" && Trim(v.text) == v.text
  }

  /** Trimming a text that does not trim to nothing gives a normalised value. */
  lemma TrimmedNormalised(s: string)
    requires Trim(s) != ""
    ensures Normalised(JText(Trim(s)))
  {
    TrimIdempotent(s);
  }

  /** A request the client issues, with the body it sends. */
  datatype Request =
    | Get                              // GET /products
    | Post(body: JsonObject)           // POST /products
    | Put(id: Id, body: JsonObject)    // PUT /products/{id}
    | Delete(id: Id)                   // DELETE /products/{id}

  /** How a write request ends: a 2xx response, a response that is not ok
      (its text body), or a rejected fetch. */
  datatype Response = Ok | NotOk(body: string) | NetworkFail

  /** How the product-list request ends: a JSON body that parsed to a list of
      products, or a failure of the fetch or of the JSON parse. */
  datatype FetchOutcome = Loaded(data: seq<Product>) | FetchFailed

  /** The three writes; each names itself in its error messages. */
  datatype Operation = AddOp | DeleteOp | UpdateOp

  /** The refetch a write issues: only a 2xx response triggers one. */
  function RefetchAfter(outcome: Response): seq<Request> {
    if outcome.Ok? then [Get] else []
  }

  // ------------------------------------------------------------- stock badge

  /** The three colours of the quantity badge: red, yellow and green. */
  datatype StockLevel = Low | Medium | High

  /** The badge colour of a quantity: green above 50, yellow above 10, red
      otherwise. The three classes are the intervals (-inf, 10], (10, 50] and
      (50, +inf), so exactly one holds of any quantity. */
  function Classify(quantity: int): (level: StockLevel)
    ensures level == Low <==> quantity <= 10
    ensures level == Medium <==> 10 < quantity <= 50
    ensures level == High <==> 50 < quantity
  {
    if quantity > 50 then High
    else if quantity > 10 then Medium
    else Low
  }

  function Rank(level: StockLevel): nat {
    match level
    case Low => 0
    case Medium => 1
    case High => 2
  }

  /** More stock never gives a lower badge. */
  lemma ClassifyMonotone(a: int, b: int)
    requires a <= b
    ensures Rank(Classify(a)) <= Rank(Classify(b))
  {
  }

  /** The boundaries: 10 is low, 11 and 50 are medium, 51 is high. */
  lemma ClassifyBoundaries()
    ensures Classify(10) == Low && Classify(11) == Medium
    ensures Classify(50) == Medium && Classify(51) == High
  {
  }

  // ---------------------------------------------------------- edit modal view

  /** `product[field]` as the edit modal's input holds it: the text fields as
      they are, the quantity (a Number) as its decimal rendering. */
  function FieldText(p: Product, f: Field): string {
    match f
    case Sku => p.sku
    case Quantity => DecimalString(p.quantity)
    case Description => p.description
  }

  /** The JSON value the product currently holds under `f`. */
  function FieldValue(p: Product, f: Field): JsonValue {
    match f
    case Sku => JText(p.sku)
    case Quantity => JNumber(p.quantity)
    case Description => JText(p.description)
  }
}
