/** The second version of the App component (src/App.js, lines 222-541):
    products carry a SKU, and single fields are edited in a modal dialog.
    Each handler is a method of `App`; the way its network request ends is a
    parameter, and the requests it issues are appended to the ghost log
    `requests`. A write never patches `products`: on success it only issues a
    refetch (a `Get`), whose answer `ReceiveProducts` delivers later. */
module AppV2 {
  import opened JsBuiltins
  import opened Inventory

  const MissingFieldsMessage := "Please fill in all fields (Name, SKU, Quantity, Description)."
  const LoadFailedMessage := "Failed to load products. Please check the API URL."

  /** The add form's four inputs, as the text they hold. */
  datatype DraftForm = DraftForm(name: string, sku: string, quantity: string, description: string)

  const EmptyForm := DraftForm("", "", "", "")

  /** The guard of addProduct: name, SKU and description must not be blank
      after trimming, and the quantity text must not be empty. */
  predicate DraftComplete(d: DraftForm) {
    Trim(d.name) != "" && Trim(d.sku) != "" && d.quantity != "" && Trim(d.description) != ""
  }

  /** The guard accepts a form exactly when name, SKU and description each
      hold a visible character and the quantity text is not empty. */
  lemma DraftCompleteMeaning(d: DraftForm)
    ensures DraftComplete(d) <==>
      !AllWhitespace(d.name) && !AllWhitespace(d.sku) && d.quantity != "" && !AllWhitespace(d.description)
  {
  }

  /** The body of the POST that creates a product. */
  function CreateBody(d: DraftForm): JsonObject {
    [ ("name", JText(Trim(d.name))),
      ("sku", JText(Trim(d.sku))),
      ("quantity", NumberValue(ParseInt(d.quantity))),
      ("description", JText(Trim(d.description))) ]
  }

  /** The create body has the keys name, sku, quantity and description, in
      that order. */
  lemma CreateBodyKeys(d: DraftForm)
    ensures Keys(CreateBody(d)) == ["name", "sku", "quantity", "description"]
  {
    var keys := Keys(CreateBody(d));
    assert keys[0] == "name" && keys[1] == "sku" && keys[2] == "quantity" && keys[3] == "description";
  }

  /** For a form the guard accepts, each text the create body sends is
      non-blank and already trimmed (trimming it again changes nothing). */
  lemma CreateBodyNormalised(d: DraftForm)
    requires DraftComplete(d)
    ensures Normalised(CreateBody(d)[0].1) && Normalised(CreateBody(d)[1].1)
    ensures Normalised(CreateBody(d)[3].1)
  {
    TrimmedNormalised(d.name);
    TrimmedNormalised(d.sku);
    TrimmedNormalised(d.description);
  }

  /** A quantity typed as the decimal rendering of `n`, possibly with
      whitespace before it and non-digit text after it, is sent as the number `n`. */
  lemma CreateBodyQuantity(d: DraftForm, ws: string, n: int, rest: string)
    requires AllWhitespace(ws) && (rest == [] || !IsDigit(rest[0]))
    requires d.quantity == ws + DecimalString(n) + rest
    ensures CreateBody(d)[2] == ("quantity", JNumber(n))
  {
    NumberValueOfDecimal(ws, n, rest);
  }

  /** What the error slot says when a write's response is not ok, before the
      server's text. */
  function FailurePrefix(op: Operation): string {
    match op
    case AddOp => "Failed to add product: "
    case DeleteOp => "Failed to delete product: "
    case UpdateOp => "Failed to update product: "
  }

  /** What the error slot says when a write's fetch rejected. */
  function NetworkMessage(op: Operation): string {
    match op
    case AddOp => "Failed to add product due to a network error."
    case DeleteOp => "Failed to delete product due to a network error."
    case UpdateOp => "Failed to update product due to a network error."
  }

  /** The message the error slot holds once a write has ended: cleared on a
      2xx response, the server's text verbatim after a fixed prefix when the
      response is not ok, a fixed network message when the fetch rejected. */
  function ErrorAfter(op: Operation, outcome: Response): (e: string)
    ensures e == "" <==> outcome.Ok?
    ensures outcome.NotOk? ==>
      && |e| == |FailurePrefix(op)| + |outcome.body|
      && e[..|FailurePrefix(op)|] == FailurePrefix(op)
      && e[|FailurePrefix(op)|..] == outcome.body
    ensures outcome.NetworkFail? ==> e == NetworkMessage(op)
  {
    match outcome
    case Ok => ""
    case NotOk(body) => FailurePrefix(op) + body
    case NetworkFail => NetworkMessage(op)
  }

  /** The body of the PUT the edit modal sends: the single key of the edited
      field; a quantity goes through parseInt, any other text is sent as typed,
      untrimmed. */
  function EditBody(f: Field, text: string): (body: JsonObject)
    ensures Keys(body) == [FieldKey(f)]
    ensures f != Quantity ==> body[0].1 == JText(text)
    ensures f == Quantity ==> (body[0].1.JNull? <==> ParseInt(text).None?)
    ensures f == Quantity && ParseInt(text).Some? ==> body[0].1 == JNumber(ParseInt(text).value)
  {
    if f == Quantity then [("quantity", NumberValue(ParseInt(text)))]
    else [(FieldKey(f), JText(text))]
  }

  /** Saving the modal without typing anything sends the value the product
      already holds: for the quantity, parseInt reads back its rendering. */
  lemma SaveUnchangedSendsCurrentValue(p: Product, f: Field)
    ensures EditBody(f, FieldText(p, f)) == [(FieldKey(f), FieldValue(p, f))]
  {
    if f == Quantity {
      ParseIntRoundTrip(p.quantity);
    }
  }

  /** The modal has no guard: saving a blank quantity sends a null
      quantity. */
  lemma BlankModalQuantitySendsNull(ws: string)
    requires AllWhitespace(ws)
    ensures EditBody(Quantity, ws) == [("quantity", JNull)]
  {
    NumberValueOfBlank(ws);
  }

  /** The edit modal's state. */
  datatype ModalState = ModalState(
    isOpen: bool, currentProduct: Option<Product>, updatedValue: string, updateField: Option<Field>)

  /** The component's state: the product list, the add form, the error slot
      and the modal. `currentProduct` None and `updateField` None stand for the
      initial null and ''. */
  class App {
    var products: seq<Product>
    var name: string
    var sku: string
    var quantity: string
    var description: string
    var error: string
    var isModalOpen: bool
    var currentProduct: Option<Product>
    var updatedValue: string
    var updateField: Option<Field>
    ghost var requests: seq<Request>

    /** An open modal always has a product and a field to edit. */
    ghost predicate Valid()
      reads this
    {
      isModalOpen ==> currentProduct.Some? && updateField.Some?
    }

    function Form(): DraftForm
      reads this
    {
      DraftForm(name, sku, quantity, description)
    }

    function Modal(): ModalState
      reads this
    {
      ModalState(isModalOpen, currentProduct, updatedValue, updateField)
    }

    constructor ()
      ensures Valid()
      ensures products == [] && Form() == EmptyForm && error == ""
      ensures Modal() == ModalState(false, None, "", None)
      ensures requests == []
    {
      products := [];
      name, sku, quantity, description := "", "", "", "";
      error := "";
      isModalOpen, currentProduct, updatedValue, updateField := false, None, "", None;
      requests := [];
    }

    /** The second half of fetchProducts: the answer to a GET arrives. The
        status is not checked, so any body that parses replaces the list. */
    method ReceiveProducts(outcome: FetchOutcome)
      modifies this
      ensures outcome.Loaded? ==> products == outcome.data && error == ""
      ensures outcome.FetchFailed? ==> products == old(products) && error == LoadFailedMessage
      ensures Form() == old(Form()) && Modal() == old(Modal()) && requests == old(requests)
    {
      match outcome
      case Loaded(data) =>
        products := data;
        error := "";
      case FetchFailed =>
        error := LoadFailedMessage;
    }

    /** fetchProducts: one GET, then its answer. */
    method FetchProducts(outcome: FetchOutcome)
      modifies this
      ensures requests == old(requests) + [Get]
      ensures outcome.Loaded? ==> products == outcome.data && error == ""
      ensures outcome.FetchFailed? ==> products == old(products) && error == LoadFailedMessage
      ensures Form() == old(Form()) && Modal() == old(Modal())
    {
      requests := requests + [Get];
      ReceiveProducts(outcome);
    }

    /** addProduct. A form the guard rejects issues nothing, keeps the form
        and shows the fill-in message. Otherwise exactly one POST goes out with
        the normalised body; a 2xx response issues a refetch and clears the
        form and the error, a failure keeps the form and shows its message. */
    method AddProduct(outcome: Response)
      modifies this
      ensures !DraftComplete(old(Form())) ==>
        requests == old(requests) && Form() == old(Form()) && error == MissingFieldsMessage
      ensures DraftComplete(old(Form())) ==>
        && requests == old(requests) + [Post(CreateBody(old(Form())))] + RefetchAfter(outcome)
        && Form() == (if outcome.Ok? then EmptyForm else old(Form()))
        && error == ErrorAfter(AddOp, outcome)
      ensures products == old(products) && Modal() == old(Modal())
    {
      var draft := Form();
      if !DraftComplete(draft) {
        error := MissingFieldsMessage;
        return;
      }
      PostDraft(CreateBody(draft), outcome);
    }

    /** The try block of addProduct: the POST with the given body and how its
        response is handled. */
    method PostDraft(body: JsonObject, outcome: Response)
      modifies this
      ensures requests == old(requests) + [Post(body)] + RefetchAfter(outcome)
      ensures Form() == (if outcome.Ok? then EmptyForm else old(Form()))
      ensures error == ErrorAfter(AddOp, outcome)
      ensures products == old(products) && Modal() == old(Modal())
    {
      requests := requests + [Post(body)];
      match outcome
      case Ok =>
        requests := requests + [Get];  // fetchProducts() is started, not awaited
        name, sku, quantity, description := "", "", "", "";
        error := "";
      case NotOk(text) =>
        error := "Failed to add product: " + text;
      case NetworkFail =>
        error := "Failed to add product due to a network error.";
    }

    /** deleteProduct: one DELETE; a 2xx response only issues a refetch and
        clears the error; `products` itself is never touched. */
    method DeleteProduct(id: Id, outcome: Response)
      modifies this
      ensures requests == old(requests) + [Delete(id)] + RefetchAfter(outcome)
      ensures error == ErrorAfter(DeleteOp, outcome)
      ensures products == old(products) && Form() == old(Form()) && Modal() == old(Modal())
    {
      requests := requests + [Delete(id)];
      match outcome
      case Ok =>
        requests := requests + [Get];
        error := "";
      case NotOk(text) =>
        error := "Failed to delete product: " + text;
      case NetworkFail =>
        error := "Failed to delete product due to a network error.";
    }

    /** updateProduct: one PUT carrying `fields`; same pattern as delete. */
    method UpdateProduct(id: Id, fields: JsonObject, outcome: Response)
      modifies this
      ensures requests == old(requests) + [Put(id, fields)] + RefetchAfter(outcome)
      ensures error == ErrorAfter(UpdateOp, outcome)
      ensures products == old(products) && Form() == old(Form()) && Modal() == old(Modal())
    {
      requests := requests + [Put(id, fields)];
      match outcome
      case Ok =>
        requests := requests + [Get];
        error := "";
      case NotOk(text) =>
        error := "Failed to update product: " + text;
      case NetworkFail =>
        error := "Failed to update product due to a network error.";
    }

    /** openModal: the modal opens on field `f` of `p`, its input holding the
        product's current value; nothing else changes and nothing is sent. */
    method OpenModal(p: Product, f: Field)
      modifies this
      ensures Valid()
      ensures Modal() == ModalState(true, Some(p), FieldText(p, f), Some(f))
      ensures products == old(products) && Form() == old(Form()) && error == old(error)
      ensures requests == old(requests)
    {
      currentProduct := Some(p);
      updateField := Some(f);
      updatedValue := FieldText(p, f);
      isModalOpen := true;
    }

    /** The modal input's change handler. */
    method ChangeUpdatedValue(text: string)
      requires Valid()
      modifies this
      ensures Valid()
      ensures Modal() == old(Modal()).(updatedValue := text)
      ensures products == old(products) && Form() == old(Form()) && error == old(error)
      ensures requests == old(requests)
    {
      updatedValue := text;
    }

    /** handleModalSave: exactly one PUT for the product being edited, whose
        body holds only the edited field; the modal closes whatever the
        outcome, keeping its product, field and text. */
    method HandleModalSave(outcome: Response)
      requires Valid() && isModalOpen
      modifies this
      ensures Valid() && !isModalOpen
      ensures currentProduct == old(currentProduct) && updateField == old(updateField)
      ensures updatedValue == old(updatedValue)
      ensures requests == old(requests)
        + [Put(old(currentProduct).value.id, EditBody(old(updateField).value, old(updatedValue)))]
        + RefetchAfter(outcome)
      ensures error == ErrorAfter(UpdateOp, outcome)
      ensures products == old(products) && Form() == old(Form())
    {
      var updatedFields: JsonObject;
      if updateField.value == Quantity {
        updatedFields := [("quantity", NumberValue(ParseInt(updatedValue)))];
      } else {
        updatedFields := [(FieldKey(updateField.value), JText(updatedValue))];
      }
      UpdateProduct(currentProduct.value.id, updatedFields, outcome);
      isModalOpen := false;
    }

    /** The close button: the modal closes; nothing is sent. */
    method CloseModal()
      modifies this
      ensures Valid()
      ensures Modal() == old(Modal()).(isOpen := false)
      ensures products == old(products) && Form() == old(Form()) && error == old(error)
      ensures requests == old(requests)
    {
      isModalOpen := false;
    }
  }

  /** Opening the modal on a field and saving it untouched sends one PUT that
      carries the value the product already has, and leaves the modal closed. */
  method EditUnchanged(app: App, p: Product, f: Field, outcome: Response)
    modifies app
    ensures app.requests == old(app.requests) + [Put(p.id, [(FieldKey(f), FieldValue(p, f))])] + RefetchAfter(outcome)
    ensures !app.isModalOpen && app.products == old(app.products)
  {
    app.OpenModal(p, f);
    app.HandleModalSave(outcome);
    SaveUnchangedSendsCurrentValue(p, f);
  }
}
