# Invoice payload validator

This project models `validateInvoiceData`, an Express middleware that checks an
invoice request body before the request reaches the controller. Without the
Express plumbing it is a pure decision on the parsed JSON body. It has three
outcomes:

- `Pass`: the middleware calls `next()`.
- `Incomplete`: it answers with the incomplete-data error.
- `ServerError`: an exception was caught and answered with the generic server error.

The decision runs in three steps:

1. The four required fields `buyerName`, `date`, `list` and `total` must all be truthy.
2. `list` must be an array.
3. Every item must have a string `id`, a non-empty string `details`, and numeric
   `quantity`, `rate` and `total`. The first item that fails decides the outcome.

The model captures the JavaScript semantics this depends on. They live in module
`JsValue` (`js_value.dfy`):

- truthiness: `""`, `0`, `false`, `null` and `undefined` are falsy, and `[]` and `{}` are truthy;
- `typeof`, where `typeof null` is `"object"`;
- `Array.isArray`;
- reading a property of `null` or `undefined` throws a TypeError.

The validator is in module `InvoiceValidator` (`validate_invoice.dfy`):

- `Validate` is the decision as a function.
- `ValidateInvoiceData` is the same decision as a loop, written the way the source writes it.
- `WellFormedItem`, `AcceptedInvoice` and `ThrowingInvoice` are reference definitions. They are stated directly on the JSON maps.

The properties are in module `InvoiceProperties` (`invoice_properties.dfy`).

Three cases follow directly from the code:

- A `null` or `undefined` body makes the destructuring on line 27 throw, which gives `ServerError`.
- A nullish item reached by the loop makes the read of `item.id` on line 40 throw, which also gives `ServerError` rather than `Incomplete`.
- An empty array `list` passes when the other three fields are truthy.

## Model

| member | source | states |
|---|---|---|
| JsValue.TypeOf | src/middlewares/ValidateInvoiceData.ts:40-44 | `typeof` yields "string" exactly for strings, "number" exactly for numbers, "undefined" exactly for undefined |
| JsValue.Truthy | src/middlewares/ValidateInvoiceData.ts:28 | a JSON value is falsy exactly when it is null, undefined, false, 0 or "", so `[]` and `{}` are truthy |
| JsValue.IsArray | src/middlewares/ValidateInvoiceData.ts:33 | a value is an array exactly when it is truthy, has `typeof` "object" and is not an object, so `[]` is an array and neither `{}` nor `null` is |
| JsValue.Get | src/middlewares/ValidateInvoiceData.ts:40 | a property read throws exactly when the receiver is null or undefined; on an object it yields the entry under the key, or undefined when the key is absent; on any other value it yields undefined |
| InvoiceValidator.CheckItem | src/middlewares/ValidateInvoiceData.ts:39-48 | one item throws exactly when it is nullish and is accepted exactly when it is an object with string `id`, non-empty string `details` and numeric `quantity`, `rate`, `total` |
| InvoiceValidator.ScanItems | src/middlewares/ValidateInvoiceData.ts:38-49 | the item loop passes iff every item is well-formed, gives a server error iff the first bad item is nullish, and gives incomplete iff the first bad item is a non-nullish malformed value |
| InvoiceValidator.ShiftFirstBad | src/middlewares/ValidateInvoiceData.ts:38-49 | skipping a well-formed first item preserves "all well-formed", "first bad item is nullish" and "first bad item is malformed" |
| InvoiceValidator.Validate | src/middlewares/ValidateInvoiceData.ts:18-57 | the outcome is Pass iff the body is an object with truthy required fields, an array `list` and only well-formed items; ServerError iff the body is nullish, or those checks pass and the first item that is not well-formed is nullish; Incomplete otherwise |
| InvoiceValidator.ValidateInvoiceData | src/middlewares/ValidateInvoiceData.ts:18-57 | the loop form passes exactly the accepted invoices, throws exactly on the throwing ones, and decides as `Validate` does |
| InvoiceProperties.NullishBodyIsServerError | src/middlewares/ValidateInvoiceData.ts:24-27 | destructuring a null or undefined body throws and yields a server error |
| InvoiceProperties.NonObjectBodyIsIncomplete | src/middlewares/ValidateInvoiceData.ts:27-29 | a string, number, boolean or array body has no required fields and is incomplete |
| InvoiceProperties.ListIgnoredWhenFieldFalsy | src/middlewares/ValidateInvoiceData.ts:27-29 | with `buyerName`, `date` or `total` falsy the outcome is Incomplete whatever `list` is |
| InvoiceProperties.FalsyRequiredFieldIsIncomplete | src/middlewares/ValidateInvoiceData.ts:27-29 | any falsy required field on an object body gives Incomplete |
| InvoiceProperties.ZeroTotalIsIncomplete | src/middlewares/ValidateInvoiceData.ts:28-29 | a total of 0 is rejected as incomplete |
| InvoiceProperties.EmptyBuyerNameIsIncomplete | src/middlewares/ValidateInvoiceData.ts:28-29 | an empty buyer name is rejected as incomplete |
| InvoiceProperties.NonArrayListIsIncomplete | src/middlewares/ValidateInvoiceData.ts:33-35 | with all required fields truthy, a `list` that is not an array gives Incomplete |
| InvoiceProperties.ValidateWithItems | src/middlewares/ValidateInvoiceData.ts:27-52 | when `list` is an array the outcome is the item loop's if `buyerName`, `date` and `total` are truthy, and Incomplete otherwise |
| InvoiceProperties.EmptyListPasses | src/middlewares/ValidateInvoiceData.ts:28-52 | an empty array `list` with the other three fields truthy passes |
| InvoiceProperties.ScanAppend | src/middlewares/ValidateInvoiceData.ts:38-49 | on a concatenation the loop reaches the second part only if every item of the first part is well-formed |
| InvoiceProperties.ShortCircuit | src/middlewares/ValidateInvoiceData.ts:38-48 | two lists that agree up to and including a bad item give the same loop outcome |
| InvoiceProperties.ValidateShortCircuit | src/middlewares/ValidateInvoiceData.ts:38-48 | changing items after the first bad item does not change the outcome of the whole validator |
| InvoiceProperties.NullishItemIsServerError | src/middlewares/ValidateInvoiceData.ts:38-55 | a nullish item preceded only by well-formed items gives ServerError, not Incomplete |
| InvoiceProperties.NonObjectItemIsIncomplete | src/middlewares/ValidateInvoiceData.ts:38-48 | a primitive or array item preceded only by well-formed items gives Incomplete, not ServerError |
| InvoiceProperties.AcmeInvoicePasses | src/middlewares/ValidateInvoiceData.ts:27-52 | a complete one-item invoice passes |
| InvoiceProperties.EmptyDetailsIsIncomplete | src/middlewares/ValidateInvoiceData.ts:45-47 | the same invoice with empty `details` is incomplete |
| InvoiceProperties.NullBeforeWidgetIsServerError | src/middlewares/ValidateInvoiceData.ts:40-55 | a `null` item ahead of a valid item gives a server error |

## Left out

- The Express `req`, `res` and `next` objects are not modelled. The responses sent by `ThrowIncompleteError` and `ThrowServerError` are not modelled either: their implementation (src/libs/ResponseErrors) is not part of this model. They appear only as the three outcomes.
- `next()`, `ThrowIncompleteError` and `ThrowServerError` are assumed not to throw. `next()` and `ThrowIncompleteError` run inside the `try` (lines 23-52), so a throw from them would turn the outcome into a server error. `ThrowServerError` runs inside the `catch` (line 55), so a throw from it would escape the middleware and reach Express.
- The `console.error` logging on line 54 is an I/O side effect and is not modelled.
- `getUsers` and `removeUser` in src/controllers/UserControllers.ts are not modelled. They are async wrappers over the Mongoose persistence calls `User.find().select(...)` and `User.findByIdAndDelete`, which are foreign. Their only local logic maps a null result or an exception to a server error.
- Numbers are unbounded integers. Floating point and NaN are not modelled: a JSON body cannot carry NaN, and the validator only asks whether a number is zero.
- Property reads are modelled only for the eight keys the validator uses. None of these keys is an inherited property of a string, array, number or boolean. Getters, prototypes, `__proto__` keys and other exotic objects are not modelled, because the body is plain parsed JSON.
- The validator never modifies the payload, and its outcome is a deterministic function of the body. No lemma states this. It holds by construction: `Validate` is a pure function of an immutable value.
