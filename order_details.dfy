/**
 * `getOrderDetails`: check the invoice number taken from the route, then assemble the
 * three result sets of `dbo.uspOrder_GetInvoiceDetails` into one response, dropping the
 * placeholder line-item rows a LEFT JOIN leaves behind.
 *
 * The stored procedure's answer is an input here: `recordsets` is what it returned for
 * the checked invoice number (a missing result set or row reads as `undefined`).
 */
module OrderDetails {
  import opened Wrappers
  import opened JsValues
  import opened Failures

  const InvoiceNumberMessage: string := "invoiceNumber must be a positive integer"
  const NotFoundMessage: string := "Order not found"

  /** The body `res.json` sends: the first customer row, the first order row and the kept line items. */
  datatype DetailResponse = DetailResponse(customerDetail: JsValue, orderDetail: JsValue, lineItems: seq<JsValue>)

  /**
   * `Number.isInteger(n) && n > 0` on the converted route parameter, yielding the integer
   * handed to the stored procedure, or the 400 error.
   */
  function CheckInvoiceNumber(n: JsNumber): (r: Result<int, Failure>)
    ensures r.Ok? <==> IsPositiveInteger(Num(n))
    ensures r.Ok? ==> r.value > 0 && r.value as real == n.val
    ensures r.Err? ==> r.error == BadRequest(InvoiceNumberMessage)
  {
    if !IsInteger(Num(n)) || n.val <= 0.0 then Err(BadRequest(InvoiceNumberMessage))
    else Ok(n.val.Floor)
  }

  /** `recordsets?.[index]?.[row]`: `undefined` when the set or the row is missing. */
  function RowAt(recordsets: seq<seq<JsValue>>, index: nat, row: nat): JsValue {
    if index < |recordsets| && row < |recordsets[index]| then recordsets[index][row] else Undefined
  }

  /** `recordsets?.[2] || []`: the raw line-item rows, none when the third set is missing. */
  function RawLineItems(recordsets: seq<seq<JsValue>>): seq<JsValue> {
    if 2 < |recordsets| then recordsets[2] else []
  }

  /** The filter's test `li && li.lineItemId`: a non-null row with a truthy `lineItemId`. */
  predicate KeepLineItem(li: JsValue) {
    Truthy(li) && Truthy(Get(li, "lineItemId"))
  }

  /** `raw.filter(li => li && li.lineItemId)`. */
  function FilterLineItems(raw: seq<JsValue>): (kept: seq<JsValue>)
    ensures |kept| <= |raw|
    ensures forall x :: x in kept ==> x in raw && KeepLineItem(x)
    ensures forall x :: x in raw && KeepLineItem(x) ==> x in kept
  {
    if raw == [] then []
    else (if KeepLineItem(raw[0]) then [raw[0]] else []) + FilterLineItems(raw[1..])
  }

  /**
   * The filter keeps the rows' order: filtering a concatenation filters each part, so the
   * kept rows appear in the order of the raw rows.
   */
  lemma {:induction false} FilterLineItemsAppend(a: seq<JsValue>, b: seq<JsValue>)
    ensures FilterLineItems(a + b) == FilterLineItems(a) + FilterLineItems(b)
  {
    if a == [] {
      assert a + b == b;
    } else {
      assert (a + b)[0] == a[0];
      assert (a + b)[1..] == a[1..] + b;
      FilterLineItemsAppend(a[1..], b);
    }
  }

  /** A single row is kept exactly when it passes the test. */
  lemma FilterLineItemsSingle(x: JsValue)
    ensures FilterLineItems([x]) == if KeepLineItem(x) then [x] else []
  {
    assert [x][1..] == [];
  }

  /** Placeholder rows are dropped: `null` rows and rows whose `lineItemId` is null, missing or empty. */
  lemma PlaceholdersDropped(li: JsValue)
    requires li.Null? || li.Undefined? || (li.Obj? && Get(li, "lineItemId") in {Null, Undefined, Str("")})
    ensures FilterLineItems([li]) == []
  {
    FilterLineItemsSingle(li);
  }

  /**
   * The endpoint's outcome for route parameter `n` (after `Number(...)`) and the result
   * sets the stored procedure returns for it.
   */
  function GetOrderDetails(n: JsNumber, recordsets: seq<seq<JsValue>>): (r: Result<DetailResponse, Failure>)
    ensures !IsPositiveInteger(Num(n)) ==> r == Err(BadRequest(InvoiceNumberMessage))
    ensures IsPositiveInteger(Num(n)) && (!Truthy(RowAt(recordsets, 0, 0)) || !Truthy(RowAt(recordsets, 1, 0))) ==>
      r == Err(NotFound(NotFoundMessage))
    ensures r.Ok? <==> IsPositiveInteger(Num(n)) && Truthy(RowAt(recordsets, 0, 0)) && Truthy(RowAt(recordsets, 1, 0))
    ensures r.Ok? ==>
      && r.value.customerDetail == RowAt(recordsets, 0, 0)
      && r.value.orderDetail == RowAt(recordsets, 1, 0)
      && r.value.lineItems == FilterLineItems(RawLineItems(recordsets))
  {
    match CheckInvoiceNumber(n)
    case Err(e) => Err(e)
    case Ok(_) =>
      var customerDetail := OrChain([RowAt(recordsets, 0, 0), Null]);
      var orderDetail := OrChain([RowAt(recordsets, 1, 0), Null]);
      var lineItems := FilterLineItems(RawLineItems(recordsets));
      if !Truthy(customerDetail) || !Truthy(orderDetail) then Err(NotFound(NotFoundMessage))
      else Ok(DetailResponse(customerDetail, orderDetail, lineItems))
  }
}
