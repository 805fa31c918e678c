# Inventory client: state logic of the React App component

This project models the state logic of a small React inventory client.
- The client keeps a product list in sync with a remote CRUD service. Each successful write is followed by a re-fetch of the whole list; the client never patches its own copy.
- It validates an add-product form and builds the JSON body of the create request.
- It reports failures through a single error slot.
- It colours each product's quantity badge red, yellow or green.

The repository holds two versions of the component:

- **Version 2** is `src/App.js` lines 222-541, modelled by module `AppV2`. Products carry a SKU, a failure message includes the server's text, and one field at a time is edited in a modal dialog.
- **Version 1** is `src/App.js` lines 1-221, modelled by module `AppV1`. There is no SKU, every failure has a fixed message, and the quantity is edited through a browser prompt. `inventory-lambda/index.js` is the same text line for line; only the base URL on line 8 differs. `AppV1` therefore models both files. Its table rows cite `inventory-lambda/index.js`, and the same line numbers hold in `src/App.js`.

Each version is a class `App`:
- The component's state variables are its fields.
- Each event handler is a method that assigns them.
- The way a network request ends is a parameter. A write ends as `Ok` (a 2xx response), `NotOk(body)` (another status, with its text body) or `NetworkFail` (the fetch rejected). The list request ends as `Loaded(data)` or `FetchFailed`.
- The requests a handler issues are appended to a ghost log `requests`. So "no request is sent" and "a refetch is issued" are plain statements about the log.
- A refetch appears in the log as a `Get`. Its answer arrives later through `ReceiveProducts`.

Module `Inventory` holds what both versions share:
- the product record and the JSON values that go into request bodies;
- the request log entries and the network outcomes;
- the stock-level classification of the badge.

Module `JsBuiltins` defines the JavaScript built-ins the handlers depend on, following ECMA-262 on strings of characters:
- `String.prototype.trim` (section 22.1.3.32): the WhiteSpace and LineTerminator code points.
- `parseInt(s, 10)` (section 19.2.5): `None` stands for NaN.
- `isNaN` on a string: StringToNumber, section 7.1.4.1.1.
- `Number::toString` of an integer.

The add-form guard, the request bodies and the badge classification are functions. The handlers are methods whose postconditions state:
- the new log;
- the new form;
- the new error text;
- the new modal state;
- what stays unchanged.

## Model

| member | source | states |
|---|---|---|
| `JsBuiltins.Trim` | src/App.js:258 | The trimmed text is no longer than the input, neither starts nor ends with whitespace, and is empty exactly when the input is all whitespace |
| `JsBuiltins.TrimIsInterior` | src/App.js:268-271 | The trimmed text is a contiguous slice of the input, and everything outside that slice is whitespace |
| `JsBuiltins.TrimIdempotent` | src/App.js:268-271 | Trimming twice gives the same text as trimming once |
| `JsBuiltins.ParseIntReadsDecimal` | src/App.js:270 | parseInt(…, 10) returns n for any text made of leading whitespace, then the decimal rendering of n, then anything not starting with a digit |
| `JsBuiltins.ParseIntRoundTrip` | src/App.js:349 | parseInt of the decimal rendering of any integer gives back that integer |
| `JsBuiltins.DecimalStringIsANumber` | inventory-lambda/index.js:93-94 | isNaN is false for the decimal rendering of every integer |
| `Inventory.NumberValueOfDecimal` | src/App.js:270 | A quantity text holding the decimal rendering of n (after any whitespace, before any non-digit text) is sent as the JSON number n |
| `Inventory.NumberValueOfBlank` | src/App.js:270 | A blank quantity text is sent as JSON null, since parseInt finds no digit and JSON.stringify writes NaN as null |
| `Inventory.FieldKeyInjective` | src/App.js:348-352 | Distinct editable fields have distinct JSON keys, so the one-key PUT body identifies the edited field |
| `Inventory.TrimmedNormalised` | src/App.js:268-271 | A text that does not trim to nothing is sent non-blank and already trimmed |
| `Inventory.Classify` | src/App.js:457-461 | Green when the quantity is above 50, yellow when it is in (10, 50], red when it is at most 10. The three cases are disjoint and cover every quantity |
| `Inventory.ClassifyMonotone` | src/App.js:457-461 | A larger quantity never gets a lower badge |
| `Inventory.ClassifyBoundaries` | inventory-lambda/index.js:185-188 | 10 is red, 11 and 50 are yellow, 51 is green |
| `AppV2.DraftCompleteMeaning` | src/App.js:258-261 | The add guard passes exactly when name, SKU and description each contain a non-whitespace character and the quantity text is not empty |
| `AppV2.CreateBodyKeys` | src/App.js:267-272 | The POST body has exactly the keys name, sku, quantity and description, in that order |
| `AppV2.CreateBodyNormalised` | src/App.js:267-272 | For a form the guard accepts, name, SKU and description are sent non-blank and trimmed |
| `AppV2.CreateBodyQuantity` | src/App.js:270 | A quantity typed as the decimal rendering of n is sent as the number n, whatever whitespace precedes it and whatever non-digit text follows it |
| `AppV2.ErrorAfter` | src/App.js:275-334 | For add, delete and update alike: after the write the error slot is empty exactly when the response was ok. When the response was not ok, the slot holds a fixed prefix followed by the server's text verbatim. When the fetch rejected, it holds the fixed network message |
| `AppV2.EditBody` | src/App.js:346-353 | The PUT body of the modal has the single key of the edited field. Any field other than quantity is sent as typed, untrimmed. The quantity is sent as the number parseInt finds, or as null when it finds none |
| `AppV2.BlankModalQuantitySendsNull` | src/App.js:346-353 | The modal has no guard, so saving a blank quantity sends a null quantity |
| `AppV2.SaveUnchangedSendsCurrentValue` | src/App.js:338-353 | Saving the modal without typing sends the value the product already holds, including the quantity read back through parseInt |
| `AppV2.App.constructor` | src/App.js:227-241 | The initial state: no products, an empty form, no error, a closed modal with no product or field, and no request issued yet |
| `AppV2.App.ReceiveProducts` | src/App.js:247-253 | A parsed body replaces the list wholesale and clears the error, since the status is not checked. A failure keeps the list and sets the load-failure message |
| `AppV2.App.FetchProducts` | src/App.js:244-254 | Exactly one GET is issued, and its answer is received as above |
| `AppV2.App.AddProduct` | src/App.js:257-291 | If the guard fails: no request, the form is unchanged, and the fill-in message is shown. Otherwise: one POST with the normalised body. On an ok response a refetch follows and the form and the error are cleared; on any failure the form is kept and the matching message is shown |
| `AppV2.App.PostDraft` | src/App.js:264-289 | The try block of the add: one POST with the given body, then the outcome handling described for AddProduct |
| `AppV2.App.DeleteProduct` | src/App.js:294-312 | One DELETE. The list itself is never touched. An ok response issues only a refetch and clears the error; a failure sets the delete message |
| `AppV2.App.UpdateProduct` | src/App.js:315-335 | One PUT with the given fields. The list itself is never touched. The error slot ends up as for delete, with the update messages |
| `AppV2.App.OpenModal` | src/App.js:338-343 | The modal opens on the given product and field, and its input holds the product's current value. Nothing else changes and nothing is sent |
| `AppV2.App.ChangeUpdatedValue` | src/App.js:524 | Typing into the modal changes only the modal's text |
| `AppV2.App.HandleModalSave` | src/App.js:346-355 | Exactly one PUT for the edited product, carrying the single-key body. The modal closes whatever the outcome |
| `AppV2.App.CloseModal` | src/App.js:509 | The close button only closes the modal and issues no request |
| `AppV2.EditUnchanged` | src/App.js:338-355 | Opening the modal and saving without typing sends one PUT carrying the product's current value, and the modal ends up closed |
| `AppV1.DraftCompleteMeaning` | inventory-lambda/index.js:26-29 | The add guard passes exactly when name and description each contain a non-whitespace character and the quantity text is not empty. The SKU plays no part |
| `AppV1.CreateBodyKeys` | inventory-lambda/index.js:35 | The POST body has exactly the keys name, quantity and description, in that order, and no sku key |
| `AppV1.CreateBodyNormalised` | inventory-lambda/index.js:35 | For a form the guard accepts, name and description are sent non-blank and trimmed |
| `AppV1.ErrorAfter` | inventory-lambda/index.js:38-89 | After a write the error slot is empty exactly when the write succeeded and either it was an add or the slot was already empty: a successful delete or update leaves a stale error in place. Any failure sets the operation's fixed message |
| `AppV1.FailureCauseHidden` | inventory-lambda/index.js:44-50 | A response that is not ok and a rejected fetch leave the same message; the server's text never reaches the error slot |
| `AppV1.QuantityBody` | inventory-lambda/index.js:95 | The prompt's PUT body has the single key quantity. Its value is the number parseInt finds, or null exactly when it finds none |
| `AppV1.PromptDefaultAccepted` | inventory-lambda/index.js:93-95 | Confirming the prompt's default passes the guard and sends the product's own quantity back |
| `AppV1.BlankReplySendsNull` | inventory-lambda/index.js:94-95 | A blank reply (empty or whitespace only) passes the guard, yet the PUT it sends has a null quantity |
| `AppV1.CorrectedGuardSendsNumbers` | inventory-lambda/index.js:94-95 | The corrected guard accepts exactly those replies that the written guard accepts and whose update would carry a number |
| `AppV1.CorrectedGuardRefusesBlank` | inventory-lambda/index.js:94 | The corrected guard refuses a blank reply |
| `AppV1.CorrectedGuardAcceptsDefault` | inventory-lambda/index.js:93-94 | The corrected guard still accepts the prompt's default, the product's own quantity |
| `AppV1.App.constructor` | inventory-lambda/index.js:5-12 | The initial state: no products, an empty form, no error, and no request issued yet |
| `AppV1.App.ReceiveProducts` | inventory-lambda/index.js:16-22 | A parsed body replaces the list wholesale and leaves the error as it was. A failure keeps the list and sets the load-failure message |
| `AppV1.App.FetchProducts` | inventory-lambda/index.js:14-23 | Exactly one GET is issued, and its answer is received as above |
| `AppV1.App.AddProduct` | inventory-lambda/index.js:25-52 | If the guard fails: no request, the form is unchanged, and the fill-in message is shown. Otherwise: one POST with the three-key body. On an ok response a refetch follows and the form and the error are cleared; on any failure the form is kept and the add message is shown |
| `AppV1.App.PostDraft` | inventory-lambda/index.js:31-51 | The try block of the add: one POST with the given body, then the outcome handling described for AddProduct |
| `AppV1.App.DeleteProduct` | inventory-lambda/index.js:54-70 | One DELETE. The list itself is never touched. An ok response issues only a refetch and keeps the error; a failure sets the delete message |
| `AppV1.App.UpdateProduct` | inventory-lambda/index.js:72-90 | One PUT with the given fields, with the same outcome handling as delete |
| `AppV1.App.HandleQuantityUpdate` | inventory-lambda/index.js:92-97 | Uses the corrected guard (see Findings). When the prompt was not cancelled, isNaN of the reply is false and parseInt finds a number: one PUT with the parsed quantity. Otherwise no request is sent and nothing changes |
| `AppV1.BlankQuantityRefused` | inventory-lambda/index.js:92-97 | With the corrected guard, answering the prompt with a blank text sends nothing and changes nothing |
| `AppV1.App.HandleQuantityUpdateAsWritten` | inventory-lambda/index.js:92-97 | The handler with the guard as written: when the prompt was not cancelled and isNaN of the reply is false, one PUT with parseInt's result, which is null when parseInt finds no number. Otherwise no request is sent and nothing changes |
| `AppV1.BlankQuantitySentAsWritten` | inventory-lambda/index.js:92-97 | As written, answering the prompt with a blank text sends a PUT whose quantity is null |

## Left out

- The HTTP transport is not modelled: `fetch`, headers, the base URL and JSON serialisation of whole bodies. A request is a log entry carrying its body as a list of key/value pairs, and a response is a parameter.
- Concurrency is not modelled. Handlers run one at a time, and a refetch is only logged when it is issued. Its answer is a separate `ReceiveProducts` call, so any interleaving of overlapping requests is outside the model.
- The following side effects are not modelled: the mount-time `useEffect` fetch, `console.error` logging, all markup and styling, and the modal title's capitalisation.
- The add form's own onChange setters are not modelled. They are plain assignments of one field.
- The browser `prompt` is an `Option<string>` parameter, where `None` is a cancelled dialog.
- JavaScript numbers are modelled as unbounded integers. Fractions, precision loss beyond 2^53, and non-integral quantities from the server are not modelled. The quantity badge compares these integers.
- `ReceiveProducts` in both versions takes the parsed list as given. A JSON body that parses to something other than a product list is not modelled, and neither is the status check the code does not make.
- `resp.text()` rejecting after a non-ok status is not modelled. In the code it would land in the network-error branch.
- `AppV1.App.HandleQuantityUpdate` uses the corrected guard. Unlike the code, it sends nothing for replies that isNaN accepts but parseInt cannot read, such as a blank text, `Infinity` or `.5`. `AppV1.App.HandleQuantityUpdateAsWritten` keeps the code's behaviour for those replies.
- The modal's field type has no `name` case, because no button opens the modal on the name (src/App.js:466-487).
- `AppV2.App.OpenModal`: an input of type number displays and reports its value as text. The modal's quantity text is modelled as the decimal rendering of the product's quantity.
- Not in the code, so not modelled:
  - a NaN pre-check in the add guard;
  - success notifications that expire;
  - a search/filter view and stock totals;
  - an error cleared by every successful action. In version 1 only a successful add clears it, and a successful fetch never does.

## Findings

| source | as written | input that shows it | evidently intended | confidence | as-written member | corrected member |
|---|---|---|---|---|---|---|
| inventory-lambda/index.js:94-95 (same lines in src/App.js) | The quantity prompt's guard tests `isNaN(newQty)`, which converts a blank string to 0, but the body sends `parseInt(newQty, 10)`, which is NaN for a blank string and is serialised as null | the reply `""` (or `"   "`) | An update goes out only when the quantity it sends is a number | not executed; follows from ECMA-262 sections 7.1.4.1.1 and 19.2.5 | `AppV1.BlankReplySendsNull` | `AppV1.CorrectedGuardSendsNumbers` |

The as-written guard is the predicate `AppV1.QuantityReplyAccepted`. The corrected guard `AppV1.CorrectedQuantityGuard` adds "parseInt finds a number", and `AppV1.App.HandleQuantityUpdate` uses it. `AppV1.App.HandleQuantityUpdateAsWritten` keeps the written guard, and `AppV1.BlankQuantitySentAsWritten` shows it sending a null quantity. The two differ only on replies that would have sent a null quantity.

Version 2's modal has no guard at all. `AppV2.BlankModalQuantitySendsNull` shows that saving a cleared quantity sends a null quantity. The input's `min` attribute does not prevent this. It is not listed as a finding, because this code makes no attempt to guard the value.
