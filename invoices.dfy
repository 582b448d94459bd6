/**
 * The shapes the order endpoints produce, and the one mapping from a flat joined row
 * into them that the grouping loop of `viewAllOrdersWithDetails` uses.
 */
module Invoices {
  import opened JsValues

  /** `customerDetail`: the ten customer columns, each as the database returned it. */
  datatype CustomerDetail = CustomerDetail(
    customerId: JsValue,
    customerName: JsValue,
    customerAddress1: JsValue,
    customerAddress2: JsValue,
    customerCity: JsValue,
    customerState: JsValue,
    customerPostalCode: JsValue,
    customerTelephone: JsValue,
    customerContactName: JsValue,
    customerEmailAddress: JsValue)

  /** `orderDetail`: the invoice number (an SQL INT), its date and the order's customer id. */
  datatype OrderDetail = OrderDetail(invoiceNumber: int, invoiceDate: JsValue, customerId: JsValue)

  /** One element of `lineItems`. */
  datatype LineItem = LineItem(
    lineItemId: JsValue,
    productId: JsValue,
    quantity: JsValue,
    invoiceDate: JsValue,
    productName: JsValue,
    productCost: JsValue,
    totalCost: JsValue)

  /** `{ customerDetail, orderDetail, lineItems }`, the body both read endpoints return per invoice. */
  datatype Invoice = Invoice(customerDetail: CustomerDetail, orderDetail: OrderDetail, lineItems: seq<LineItem>)

  /**
   * One row of `dbo.uspOrder_GetAllInvoiceDetails_Flat`: the invoice header joined with at
   * most one line item (all line-item columns null when the left join found none).
   */
  datatype FlatRow = FlatRow(
    invoiceNumber: int,
    customerId: JsValue,
    customerName: JsValue,
    customerAddress1: JsValue,
    customerAddress2: JsValue,
    customerCity: JsValue,
    customerState: JsValue,
    customerPostalCode: JsValue,
    customerTelephone: JsValue,
    customerContactName: JsValue,
    customerEmailAddress: JsValue,
    invoiceDate: JsValue,
    orderCustomerId: JsValue,
    lineItemId: JsValue,
    productId: JsValue,
    quantity: JsValue,
    productName: JsValue,
    productCost: JsValue,
    totalCost: JsValue)

  function InvoiceNumberOf(inv: Invoice): int {
    inv.orderDetail.invoiceNumber
  }

  /** The line-item discriminator: the row carries a line item exactly when its `lineItemId` is truthy. */
  predicate HasLineItem(r: FlatRow) {
    Truthy(r.lineItemId)
  }

  /** The customer summary copied from a row. */
  function CustomerDetailOf(r: FlatRow): CustomerDetail {
    CustomerDetail(r.customerId, r.customerName, r.customerAddress1, r.customerAddress2,
                   r.customerCity, r.customerState, r.customerPostalCode, r.customerTelephone,
                   r.customerContactName, r.customerEmailAddress)
  }

  /** The order summary copied from a row; its customer id is `r.orderCustomerId || r.customerId`. */
  function OrderDetailOf(r: FlatRow): (o: OrderDetail)
    ensures o.invoiceNumber == r.invoiceNumber && o.invoiceDate == r.invoiceDate
    ensures Truthy(r.orderCustomerId) ==> o.customerId == r.orderCustomerId
    ensures !Truthy(r.orderCustomerId) ==> o.customerId == r.customerId
  {
    OrderDetail(r.invoiceNumber, r.invoiceDate, OrChain([r.orderCustomerId, r.customerId]))
  }

  /** The line item a row contributes, carrying the row's own `invoiceDate`. */
  function LineItemOf(r: FlatRow): LineItem {
    LineItem(r.lineItemId, r.productId, r.quantity, r.invoiceDate,
             r.productName, r.productCost, r.totalCost)
  }
}
