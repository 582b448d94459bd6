# Order controller: a verified model

This project models the logic of `src/controllers/orderController.js`, the order controller of a small Express and SQL Server API for customers, products and invoices. The controller has three request-scoped transforms, and the model lifts each out of its HTTP and database shell.

- **`viewAllOrdersWithDetails`** groups the flat joined rows of `dbo.uspOrder_GetAllInvoiceDetails_Flat` by invoice number.
  - Each invoice keeps the customer and order summaries of its first row.
  - A line item is appended for every row whose `lineItemId` is truthy.
  - The invoices are returned in ascending invoice-number order.
  - The model is the `AggregateFlatRows` method. Like the source, it loops once over the rows and updates a map keyed by invoice number. It also keeps the map's insertion order, which `Array.from(byInvoice.values())` follows. It then sorts.
  - The method is proved against a per-invoice specification (`InvoiceFor`, `AggregatedFrom`).
- **`getOrderDetails`** works in three steps.
  - It checks that the route's invoice number is a positive integer.
  - It answers "Order not found" unless both the customer and the order result sets have a first row.
  - It filters the placeholder line-item rows that a LEFT JOIN produces.
- **`createOrder`**, together with `isGuid`, works in five steps.
  - It resolves the customer id, the invoice date and the item list through `||` fallback chains.
  - It validates them in a fixed order. The item loop stops at the first bad item.
  - It checks an optional date.
  - It projects the items to `{ productId, quantity }`.
  - Its `catch` block reclassifies status-less "does not exist" errors as 400.

JavaScript values are modelled by the `JsValue` datatype. Truthiness follows ECMAScript ToBoolean. A property read on `null` or `undefined` is a status-less `TypeError`, which the error middleware turns into a 500. `a || b || c` yields the first truthy operand, or the last operand when none is truthy.

Modules, one per file:

| file | module | contents |
|---|---|---|
| `wrappers.dfy` | `Wrappers` | `Option`, `Result` |
| `js_values.dfy` | `JsValues` | values, truthiness, property reads, `Number.isInteger`, `\|\|` chains |
| `failures.dfy` | `Failures` | `badRequest`, `notFound`, the `TypeError` of a null read |
| `guid.dfy` | `Guid` | `isGuid` |
| `invoices.dfy` | `Invoices` | the row and invoice shapes, and the mapping from a row |
| `sorting.dfy` | `Sorting` | `Array.prototype.sort` with a numeric comparator |
| `flat_aggregation.dfy` | `FlatAggregation` | the grouping specification and the loop |
| `aggregation_facts.dfy` | `AggregationFacts` | uniqueness, the item count, a worked example |
| `order_details.dfy` | `OrderDetails` | `getOrderDetails` |
| `create_order.dfy` | `CreateOrder` | `createOrder` and its `catch` block |

Three behaviours of the code are easy to misread; the model follows the code:

- A `null` element of `products` is not rejected with a 400: reading `p.productId` throws a `TypeError`, which carries no status, and the `catch` block passes it on unchanged.
- The date counts as supplied whenever it is not `undefined`, `null` or `""`, so a falsy value such as `0` or `false` still goes to the date parser.
- The detail endpoint answers 404 when the first row of the customer set or of the order set is falsy (missing or `null`).

## Model

All source paths are in `src/controllers/orderController.js`.

| member | source | states |
|---|---|---|
| JsValues.FirstTruthyIndex | src/controllers/orderController.js:154-163 | An `\|\|` chain stops at the first truthy operand, and every operand before it is falsy. When no operand is truthy it stops at the last one. |
| JsValues.OrChainPrecedence | src/controllers/orderController.js:154-163 | In a fallback chain, a truthy operand wins over everything after it. A falsy operand hands over to the rest of the chain. |
| JsValues.AllFalsyChainYieldsLast | src/controllers/orderController.js:160-163 | A chain of falsy operands yields its last operand (e.g. `items`), not `undefined`. |
| Guid.PatternIsLayout | src/controllers/orderController.js:15-18 | The 8-4-4-4-12 pattern holds exactly when the string has length 36, has '-' at positions 8, 13, 18 and 23, and has a hex digit of either case everywhere else. |
| Guid.OnlyStringsAreGuids | src/controllers/orderController.js:15-16 | A value that is not a string is never a GUID (the `typeof s === "string"` guard). |
| Guid.GuidExamples | src/controllers/orderController.js:15-18 | "550e8400-e29b-41d4-a716-446655440000" is accepted and "not-a-guid" is rejected. |
| Invoices.OrderDetailOf | src/controllers/orderController.js:64-69 | The order summary copies the row's invoice number and date. Its customer id is `orderCustomerId` when that is truthy, otherwise the row's `customerId`. |
| Sorting.InsertBy | src/controllers/orderController.js:89-91 | Inserting into a strictly ascending list keeps it strictly ascending. It adds exactly one element (as a multiset) and exactly one key. |
| Sorting.SortBy | src/controllers/orderController.js:89-91 | For distinct keys, the sort's result is strictly ascending by key. It is a permutation of the input and has the same key set. |
| Sorting.SortByElements | src/controllers/orderController.js:89-91 | The sorted list has the input's length, and each of its elements is an input element. |
| Sorting.AscendingKeysDetermined | src/controllers/orderController.js:89-91 | Two strictly ascending lists with the same key set have the same length and the same key at every position. |
| FlatAggregation.FirstIndex | src/controllers/orderController.js:47-51 | The row that creates invoice `k` carries `k`, and no earlier row does. |
| FlatAggregation.LineItemsForAppend | src/controllers/orderController.js:74-85 | An invoice's line items over `a + b` are its items over `a` followed by its items over `b`. Items keep the order of their rows. |
| FlatAggregation.FirstWriterWins | src/controllers/orderController.js:50-72 | Once invoice `k` exists, later rows never change its customer or order summary. They only append line items. |
| FlatAggregation.FirstRowCreates | src/controllers/orderController.js:50-85 | The first row of an invoice creates it from its own summaries. It adds a line item only when its `lineItemId` is truthy, and creates the invoice even when it is not. |
| FlatAggregation.InvoiceForExtend | src/controllers/orderController.js:47-86 | One more row adds its number to the set of invoice numbers. It changes only the invoice it names: that invoice is either extended by the row's own item or newly created. |
| FlatAggregation.IndexesStep | src/controllers/orderController.js:48-85 | The loop body keeps the map equal to the specification's invoice for every number seen so far. |
| FlatAggregation.NumberedByKeys | src/controllers/orderController.js:89 | The map's values, listed once per key, have distinct invoice numbers. Their numbers are the map's keys, and there is one value per key. |
| FlatAggregation.SortedValuesAreAggregation | src/controllers/orderController.js:88-91 | Sorting values that are the specification's invoices, one per invoice number, gives the specified answer. |
| FlatAggregation.InsertionOrderSorted | src/controllers/orderController.js:89-91 | `Array.from(byInvoice.values())` sorted by invoice number is the specified answer, with one invoice per distinct number. |
| FlatAggregation.AggregateFlatRows | src/controllers/orderController.js:43-91 | The answer is strictly ascending by invoice number, with exactly one invoice per distinct input number. Each invoice has its first row's summaries and all of its line items, in row order. |
| AggregationFacts.AggregationIsUnique | src/controllers/orderController.js:88-91 | Two answers that both meet the specification for the same rows are equal, so the specification fixes the output. |
| AggregationFacts.TotalLineItemsMatchRows | src/controllers/orderController.js:74-85 | The response holds as many line items as there are rows with a truthy `lineItemId`. None is lost or duplicated. |
| AggregationFacts.ExampleAggregation | src/controllers/orderController.js:45-91 | Rows [2 without an item, 1 "li1", 1 "li2"] give invoices [1, 2]. Invoice 1 has "li1" then "li2"; invoice 2 has no items. |
| OrderDetails.CheckInvoiceNumber | src/controllers/orderController.js:108-111 | The number is accepted exactly when it is a positive integer, and the accepted value is that integer. Otherwise the result is a 400 "invoiceNumber must be a positive integer". |
| OrderDetails.FilterLineItems | src/controllers/orderController.js:123-124 | The kept rows are exactly the raw rows that are truthy and have a truthy `lineItemId`. There are no more of them than raw rows. |
| OrderDetails.FilterLineItemsAppend | src/controllers/orderController.js:124 | Filtering a concatenation filters each part, so the kept rows stay in their original order. |
| OrderDetails.FilterLineItemsSingle | src/controllers/orderController.js:124 | A single row is kept exactly when `li && li.lineItemId` holds. |
| OrderDetails.PlaceholdersDropped | src/controllers/orderController.js:122-124 | A `null` row, or a row whose `lineItemId` is null, missing or empty, is dropped. |
| OrderDetails.GetOrderDetails | src/controllers/orderController.js:108-130 | A bad invoice number gives a 400 before the database is read. A missing customer or order row then gives a 404 "Order not found", whatever the line items are. Otherwise the response holds both first rows and the filtered line items. |
| CreateOrder.InvoiceData | src/controllers/orderController.js:154 | `invoiceData` is the body's truthy `invoiceData`, otherwise `{}`, so its fields can always be read. |
| CreateOrder.ResolvedCustomerId | src/controllers/orderController.js:156 | A truthy top-level `customerId` wins. Otherwise the id is `invoiceData.customerId`. |
| CreateOrder.ResolvedInvoiceDate | src/controllers/orderController.js:157 | A truthy top-level `invoiceDate` wins. Otherwise the date is `invoiceData.invoiceDate`. |
| CreateOrder.ResolvedProducts | src/controllers/orderController.js:160-163 | The item list is `products` if truthy, else `lineItems` if truthy, else `items`. |
| CreateOrder.FirstRejectedExists | src/controllers/orderController.js:173-180 | When some item fails, there is exactly one first failing item. |
| CreateOrder.AcceptedItemShape | src/controllers/orderController.js:174-179 | An accepted item is not nullish, has a GUID-string `productId`, and has a `quantity` that is a positive integer (`Number.isInteger` and greater than 0). |
| CreateOrder.ValidateItems | src/controllers/orderController.js:173-180 | The loop passes exactly when every item passes. Otherwise it reports the first failing item's error: a null item is a `TypeError`, then the productId check, then the quantity check. |
| CreateOrder.ProjectItems | src/controllers/orderController.js:192-194 | The projection has one entry per item, in order. Each entry holds exactly that item's `productId` and its (positive) `quantity`. |
| CreateOrder.ProjectItemsAppend | src/controllers/orderController.js:193 | The projection of a concatenation is the concatenation of the projections. |
| CreateOrder.CreateOrder | src/controllers/orderController.js:154-194 | The first failing rule decides the error, in this order: customerId, then a non-empty array, then the first bad item, then a present but unparsable date. Success happens exactly when all rules pass. It yields the resolved customer id, the parsed date only if one was present, and the projected items. |
| CreateOrder.ToLowerAscii | src/controllers/orderController.js:214 | Lower-casing keeps the length and leaves no ASCII capital. It moves each capital to its lower-case letter and keeps every other character. |
| CreateOrder.OccursWhenIncluded | src/controllers/orderController.js:214 | When `includes` answers true, the text occurs at some position. |
| CreateOrder.IncludedWhenOccurs | src/controllers/orderController.js:214 | Every occurrence of the text makes `includes` answer true. |
| CreateOrder.Reclassify | src/controllers/orderController.js:213-216 | The message is kept. An error whose `statusCode` is set passes unchanged. Any other error either passes unchanged or gains status 400. |
| CreateOrder.ReclassifyExactly | src/controllers/orderController.js:214-216 | A status-less error whose lower-cased message contains "does not exist" gets status 400. An error whose message does not contain it is unchanged. |
| CreateOrder.ReclassifyIdempotent | src/controllers/orderController.js:214-216 | Reclassifying twice is the same as reclassifying once. |
| CreateOrder.ReclassifyIgnoresCase | src/controllers/orderController.js:214 | "DOES NOT EXIST" is reclassified as a 400, because the match ignores case. |
| CreateOrder.OccurrenceCharacters | src/controllers/orderController.js:214 | Every character of a word found in a message is a character of that message. |
| CreateOrder.ReadFailurePassesThrough | src/controllers/orderController.js:212-216 | The `TypeError` of reading a key without `x` from `null` or `undefined` leaves the `catch` block unchanged, still without a status. |
| CreateOrder.ControllerReadFailuresPassThrough | src/controllers/orderController.js:212-216 | The `TypeError`s of reading `invoiceData` from a nullish body and `productId` from a nullish item leave the `catch` block unchanged, still without a status. |

## Left out

- The database and HTTP calls are parameters, not modelled. This covers `getPool`, `request().input(...).execute(...)`, `res.json`, `res.status(200).send(...)` and `next(err)`. The aggregator takes the rows, and the detail path takes the result sets.
  - `CreateOrder.CreateOrder` ends with the command passed to `dbo.uspOrder_Create`.
  - The text "New Invoice Added: …" is not modelled.
- `result.recordset || []` (line 43) is not modelled: the aggregator's input is always a list.
- A missing `recordsets` (lines 119-123) reads the same as an empty list of result sets.
- `Number(req.params.invoiceNumber)` (line 108): string-to-number conversion is not modelled. `OrderDetails.CheckInvoiceNumber` takes the converted number.
- `new Date(raw)` and the `getTime()` NaN check (lines 185-186) are the parameter `parseDate`. ECMAScript date parsing is not modelled.
- `JSON.stringify` (line 192): the projected list of items is modelled, not its JSON text.
- `Sorting.SortBy`: stated only for lists whose invoice numbers are distinct, the only lists this endpoint sorts, since they are a map's values. The behaviour of `Array.prototype.sort` on equal keys is not modelled.
- `CreateOrder.ToLowerAscii`: folds only ASCII letters. Unicode case mapping in `toLowerCase` is not modelled.
- `Failures.ReadFailure`: the `TypeError` message follows the V8 engine's wording. Its text matters here only in that it never causes reclassification (`CreateOrder.ControllerReadFailuresPassThrough`).
- `typeof err.message === "string"` (line 214): every modelled error has a string message.
- JavaScript numbers are reals, NaN or infinities. Negative zero is the same as zero, and 64-bit floating-point rounding is not modelled.
- A property read returns an object's own field, or `undefined` on every other value. Inherited properties are not modelled, and none of the controller's keys is one.
- `viewAllOrders` (lines 21-29) only forwards a stored-procedure result, so it is not modelled.
- The other controllers, the routes, the middleware and `src/db/pool.js` are not part of this model.
