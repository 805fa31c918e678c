/** The first version of the App component (src/App.js, lines 1-221; the
    handler at inventory-lambda/index.js is the same text with another base
    URL): products have no SKU, the quantity is edited through a browser
    prompt, and every failure is reported with a fixed message. As in the
    second version each handler is a method of `App`, the network result is a
    parameter and the requests issued are appended to the ghost log
    `requests`. */
module AppV1 {
  import opened JsBuiltins
  import opened Inventory

  const MissingFieldsMessage := "Please fill in all fields"
  const LoadFailedMessage := "Failed to load products"

  /** The add form's three inputs, as the text they hold. */
  datatype DraftForm = DraftForm(name: string, quantity: string, description: string)

  const EmptyForm := DraftForm("", "", "")

  /** The guard of addProduct: name and description must not be blank after
      trimming, and the quantity text must not be empty. */
  predicate DraftComplete(d: DraftForm) {
    Trim(d.name) != "" && d.quantity != "" && Trim(d.description) != ""
  }

  /** The guard accepts a form exactly when name and description each hold a
      visible character and the quantity text is not empty. */
  lemma DraftCompleteMeaning(d: DraftForm)
    ensures DraftComplete(d) <==>
      !AllWhitespace(d.name) && d.quantity != "" && !AllWhitespace(d.description)
  {
  }

  /** The body of the POST that creates a product. */
  function CreateBody(d: DraftForm): JsonObject {
    [ ("name", JText(Trim(d.name))),
      ("quantity", NumberValue(ParseInt(d.quantity))),
      ("description", JText(Trim(d.description))) ]
  }

  /** The create body has the keys name, quantity and description, in that
      order, and no sku. */
  lemma CreateBodyKeys(d: DraftForm)
    ensures Keys(CreateBody(d)) == ["name", "quantity", "description"]
    ensures Lookup(CreateBody(d), "sku") == None
  {
    var keys := Keys(CreateBody(d));
    assert keys[0] == "name" && keys[1] == "quantity" && keys[2] == "description";
  }

  /** For a form the guard accepts, the name and the description are sent
      non-blank and already trimmed. */
  lemma CreateBodyNormalised(d: DraftForm)
    requires DraftComplete(d)
    ensures Normalised(CreateBody(d)[0].1) && Normalised(CreateBody(d)[2].1)
  {
    TrimmedNormalised(d.name);
    TrimmedNormalised(d.description);
  }

  /** The fixed message of a failed write, whatever the cause. */
  function FailureMessage(op: Operation): (m: string)
    ensures m != ""
  {
    match op
    case AddOp => "Failed to add product"
    case DeleteOp => "Failed to delete product"
    case UpdateOp => "Failed to update product"
  }

  /** The message the error slot holds once a write has ended, given what it
      held before: only a successful add clears it, a successful delete or
      update leaves it as it was, and any failure replaces it by the fixed
      message of the operation. So the slot is empty afterwards exactly when
      the write succeeded and it was an add or the slot was already empty. */
  function ErrorAfter(op: Operation, outcome: Response, previous: string): (e: string)
    ensures e == "" <==> outcome.Ok? && (op == AddOp || previous == "")
    ensures outcome.Ok? && op != AddOp ==> e == previous
    ensures !outcome.Ok? ==> e == FailureMessage(op)
  {
    match outcome
    case Ok => if op == AddOp then "" else previous
    case NotOk(_) => FailureMessage(op)
    case NetworkFail => FailureMessage(op)
  }

  /** The server's text never reaches the error slot: a response that is not
      ok and a rejected fetch leave the same message. */
  lemma FailureCauseHidden(op: Operation, body: string, previous: string, previous': string)
    ensures ErrorAfter(op, NotOk(body), previous) == ErrorAfter(op, NetworkFail, previous')
  {
  }

  // ------------------------------------------------------ quantity prompt

  /** The body of the PUT the quantity prompt sends. */
  function QuantityBody(text: string): (body: JsonObject)
    ensures Keys(body) == ["quantity"]
    ensures body[0].1.JNull? <==> ParseInt(text).None?
    ensures ParseInt(text).Some? ==> body[0].1 == JNumber(ParseInt(text).value)
  {
    [("quantity", NumberValue(ParseInt(text)))]
  }

  /** The guard of handleQuantityUpdate as written: the prompt was not
      cancelled and isNaN is false of the reply. */
  predicate QuantityReplyAccepted(reply: Option<string>) {
    reply.Some? && !IsNaNString(reply.value)
  }

  /** Confirming the prompt's default, the product's quantity rendered as
      text, is accepted and sends that same quantity back. */
  lemma PromptDefaultAccepted(p: Product)
    ensures QuantityReplyAccepted(Some(DecimalString(p.quantity)))
    ensures QuantityBody(DecimalString(p.quantity)) == [("quantity", JNumber(p.quantity))]
  {
    DecimalStringIsANumber(p.quantity);
    ParseIntRoundTrip(p.quantity);
  }

  /** A blank reply (empty, or whitespace only) passes the guard, because
      isNaN converts it to 0, yet parseInt finds no digit in it: the update
      goes out with a null quantity. */
  lemma BlankReplySendsNull(ws: string)
    requires AllWhitespace(ws)
    ensures QuantityReplyAccepted(Some(ws))
    ensures QuantityBody(ws) == [("quantity", JNull)]
  {
    NumberValueOfBlank(ws);
    assert LeadingWhitespace(ws) == |ws|;
  }

  /** The guard with the check it evidently intends: the reply is accepted
      as written and parseInt finds a number in it. */
  predicate CorrectedQuantityGuard(reply: Option<string>) {
    QuantityReplyAccepted(reply) && ParseInt(reply.value).Some?
  }

  /** The corrected guard accepts exactly the replies the written guard
      accepts whose update would carry a number. */
  lemma CorrectedGuardSendsNumbers(reply: Option<string>)
    ensures CorrectedQuantityGuard(reply) <==>
      QuantityReplyAccepted(reply) && QuantityBody(reply.value)[0].1.JNumber?
  {
  }

  /** The corrected guard refuses a blank reply. */
  lemma CorrectedGuardRefusesBlank(ws: string)
    requires AllWhitespace(ws)
    ensures !CorrectedQuantityGuard(Some(ws))
  {
    NumberValueOfBlank(ws);
  }

  /** The corrected guard still accepts the prompt's default. */
  lemma CorrectedGuardAcceptsDefault(p: Product)
    ensures CorrectedQuantityGuard(Some(DecimalString(p.quantity)))
  {
    PromptDefaultAccepted(p);
  }

  /** The component's state: the product list, the add form and the error
      slot. */
  class App {
    var products: seq<Product>
    var name: string
    var quantity: string
    var description: string
    var error: string
    ghost var requests: seq<Request>

    function Form(): DraftForm
      reads this
    {
      DraftForm(name, quantity, description)
    }

    constructor ()
      ensures products == [] && Form() == EmptyForm && error == ""
      ensures requests == []
    {
      products := [];
      name, quantity, description := "", "", "";
      error := "";
      requests := [];
    }

    /** The second half of fetchProducts: the answer to a GET arrives. The
        status is not checked, so any body that parses replaces the list; a
        success leaves the error slot as it was. */
    method ReceiveProducts(outcome: FetchOutcome)
      modifies this
      ensures outcome.Loaded? ==> products == outcome.data && error == old(error)
      ensures outcome.FetchFailed? ==> products == old(products) && error == LoadFailedMessage
      ensures Form() == old(Form()) && requests == old(requests)
    {
      match outcome
      case Loaded(data) =>
        products := data;
      case FetchFailed =>
        error := LoadFailedMessage;
    }

    /** fetchProducts: one GET, then its answer. */
    method FetchProducts(outcome: FetchOutcome)
      modifies this
      ensures requests == old(requests) + [Get]
      ensures outcome.Loaded? ==> products == outcome.data && error == old(error)
      ensures outcome.FetchFailed? ==> products == old(products) && error == LoadFailedMessage
      ensures Form() == old(Form())
    {
      requests := requests + [Get];
      ReceiveProducts(outcome);
    }

    /** addProduct. A form the guard rejects issues nothing, keeps the form
        and shows the fill-in message. Otherwise exactly one POST goes out with
        the normalised body; a 2xx response issues a refetch and clears the
        form and the error, a failure keeps the form and shows the fixed
        message. */
    method AddProduct(outcome: Response)
      modifies this
      ensures !DraftComplete(old(Form())) ==>
        requests == old(requests) && Form() == old(Form()) && error == MissingFieldsMessage
      ensures DraftComplete(old(Form())) ==>
        && requests == old(requests) + [Post(CreateBody(old(Form())))] + RefetchAfter(outcome)
        && Form() == (if outcome.Ok? then EmptyForm else old(Form()))
        && error == ErrorAfter(AddOp, outcome, old(error))
      ensures products == old(products)
    {
      var draft := Form();
      if !DraftComplete(draft) {
        error := MissingFieldsMessage;
        return;
      }
      PostDraft(CreateBody(draft), outcome);
    }

    /** The try block of addProduct: the POST with the given body and how its
        response is handled. */
    method PostDraft(body: JsonObject, outcome: Response)
      modifies this
      ensures requests == old(requests) + [Post(body)] + RefetchAfter(outcome)
      ensures Form() == (if outcome.Ok? then EmptyForm else old(Form()))
      ensures error == ErrorAfter(AddOp, outcome, old(error))
      ensures products == old(products)
    {
      requests := requests + [Post(body)];
      match outcome
      case Ok =>
        requests := requests + [Get];  // fetchProducts() is started, not awaited
        name, quantity, description := "", "", "";
        error := "";
      case NotOk(_) =>
        error := "Failed to add product";
      case NetworkFail =>
        error := "Failed to add product";
    }

    /** deleteProduct: one DELETE; a 2xx response only issues a refetch and
        leaves the error slot alone; `products` itself is never touched. */
    method DeleteProduct(id: Id, outcome: Response)
      modifies this
      ensures requests == old(requests) + [Delete(id)] + RefetchAfter(outcome)
      ensures error == ErrorAfter(DeleteOp, outcome, old(error))
      ensures products == old(products) && Form() == old(Form())
    {
      requests := requests + [Delete(id)];
      match outcome
      case Ok =>
        requests := requests + [Get];
      case NotOk(_) =>
        error := "Failed to delete product";
      case NetworkFail =>
        error := "Failed to delete product";
    }

    /** updateProduct: one PUT carrying `fields`; same pattern as delete. */
    method UpdateProduct(id: Id, fields: JsonObject, outcome: Response)
      modifies this
      ensures requests == old(requests) + [Put(id, fields)] + RefetchAfter(outcome)
      ensures error == ErrorAfter(UpdateOp, outcome, old(error))
      ensures products == old(products) && Form() == old(Form())
    {
      requests := requests + [Put(id, fields)];
      match outcome
      case Ok =>
        requests := requests + [Get];
      case NotOk(_) =>
        error := "Failed to update product";
      case NetworkFail =>
        error := "Failed to update product";
    }

    /** handleQuantityUpdate, with the corrected guard: `reply` is what the
        prompt returned (None when it was cancelled). An accepted reply sends
        one PUT for the product with the parsed quantity; any other reply
        changes nothing. */
    method HandleQuantityUpdate(product: Product, reply: Option<string>, outcome: Response)
      modifies this
      ensures CorrectedQuantityGuard(reply) ==>
        && requests == old(requests) + [Put(product.id, QuantityBody(reply.value))] + RefetchAfter(outcome)
        && error == ErrorAfter(UpdateOp, outcome, old(error))
      ensures !CorrectedQuantityGuard(reply) ==> requests == old(requests) && error == old(error)
      ensures products == old(products) && Form() == old(Form())
    {
      if reply.Some? && !IsNaNString(reply.value) && ParseInt(reply.value).Some? {
        UpdateProduct(product.id, [("quantity", NumberValue(ParseInt(reply.value)))], outcome);
      }
    }

    /** handleQuantityUpdate with the guard as the code writes it: a reply
        that isNaN accepts is sent even when parseInt finds no number in it,
        and then the PUT carries a null quantity. */
    method HandleQuantityUpdateAsWritten(product: Product, reply: Option<string>, outcome: Response)
      modifies this
      ensures QuantityReplyAccepted(reply) ==>
        && requests == old(requests) + [Put(product.id, QuantityBody(reply.value))] + RefetchAfter(outcome)
        && error == ErrorAfter(UpdateOp, outcome, old(error))
      ensures !QuantityReplyAccepted(reply) ==> requests == old(requests) && error == old(error)
      ensures products == old(products) && Form() == old(Form())
    {
      if reply.Some? && !IsNaNString(reply.value) {
        UpdateProduct(product.id, [("quantity", NumberValue(ParseInt(reply.value)))], outcome);
      }
    }
  }

  /** Answering the quantity prompt with a blank text sends nothing and
      leaves the state as it was. */
  method BlankQuantityRefused(app: App, product: Product, ws: string, outcome: Response)
    requires AllWhitespace(ws)
    modifies app
    ensures app.requests == old(app.requests) && app.error == old(app.error)
    ensures app.products == old(app.products) && app.Form() == old(app.Form())
  {
    CorrectedGuardRefusesBlank(ws);
    app.HandleQuantityUpdate(product, Some(ws), outcome);
  }

  /** As the code is written, answering the quantity prompt with a blank text
      sends a PUT whose quantity is null. */
  method BlankQuantitySentAsWritten(app: App, product: Product, ws: string, outcome: Response)
    requires AllWhitespace(ws)
    modifies app
    ensures app.requests == old(app.requests) + [Put(product.id, [("quantity", JNull)])] + RefetchAfter(outcome)
  {
    BlankReplySendsNull(ws);
    app.HandleQuantityUpdateAsWritten(product, Some(ws), outcome);
  }
}
