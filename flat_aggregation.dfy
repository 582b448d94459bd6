/**
 * `viewAllOrdersWithDetails`: group the flat joined rows by invoice number, keep the
 * summaries of the first row of each invoice, append a line item for every row that
 * carries one, and return the invoices in ascending invoice-number order.
 *
 * The specification is stated per invoice number (`InvoiceFor`); the method that
 * mirrors the controller's loop is proved against it.
 */
module FlatAggregation {
  import opened JsValues
  import opened Invoices
  import opened Sorting

  /** The distinct invoice numbers among the rows. */
  function InvoiceNumbers(rows: seq<FlatRow>): set<int> {
    if rows == [] then {} else {rows[0].invoiceNumber} + InvoiceNumbers(rows[1..])
  }

  /** The position of the first row that carries invoice number `k`. */
  function FirstIndex(rows: seq<FlatRow>, k: int): (i: nat)
    requires k in InvoiceNumbers(rows)
    ensures i < |rows| && rows[i].invoiceNumber == k
    ensures forall j :: 0 <= j < i ==> rows[j].invoiceNumber != k
  {
    if rows[0].invoiceNumber == k then 0 else 1 + FirstIndex(rows[1..], k)
  }

  /** The line items of invoice `k`: one per row of that invoice with a line item, in row order. */
  function LineItemsFor(rows: seq<FlatRow>, k: int): seq<LineItem> {
    if rows == [] then [] else ItemOfRowFor(rows[0], k) + LineItemsFor(rows[1..], k)
  }

  /** The line items row `r` contributes on its own: one, or none when it carries no line item. */
  function OwnLineItems(r: FlatRow): seq<LineItem> {
    if HasLineItem(r) then [LineItemOf(r)] else []
  }

  /** The line item row `r` contributes to invoice `k`: its own, if it belongs to `k`. */
  function ItemOfRowFor(r: FlatRow, k: int): seq<LineItem> {
    if r.invoiceNumber == k then OwnLineItems(r) else []
  }

  /**
   * The invoice the endpoint reports for number `k`: the customer and order summaries of
   * the first row with that number, and every line item of that number in row order.
   */
  function InvoiceFor(rows: seq<FlatRow>, k: int): Invoice
    requires k in InvoiceNumbers(rows)
  {
    var first := rows[FirstIndex(rows, k)];
    Invoice(CustomerDetailOf(first), OrderDetailOf(first), LineItemsFor(rows, k))
  }

  /**
   * What the endpoint returns for `rows`: one invoice per distinct invoice number, each
   * equal to `InvoiceFor`, in strictly ascending invoice-number order.
   */
  predicate AggregatedFrom(invoices: seq<Invoice>, rows: seq<FlatRow>) {
    && StrictlyAscendingBy(invoices, InvoiceNumberOf)
    && KeySet(invoices, InvoiceNumberOf) == InvoiceNumbers(rows)
    && forall i :: 0 <= i < |invoices| ==>
         InvoiceNumberOf(invoices[i]) in InvoiceNumbers(rows) &&
         invoices[i] == InvoiceFor(rows, InvoiceNumberOf(invoices[i]))
  }

  // ---------------------------------------------------------------------------
  // Properties of the per-invoice specification
  // ---------------------------------------------------------------------------

  /** A number is an invoice number of the rows exactly when some row carries it. */
  lemma {:induction false} InvoiceNumbersMembership(rows: seq<FlatRow>, i: nat)
    requires i < |rows|
    ensures rows[i].invoiceNumber in InvoiceNumbers(rows)
  {
    if i > 0 {
      InvoiceNumbersMembership(rows[1..], i - 1);
    }
  }

  lemma {:induction false} InvoiceNumbersAppend(a: seq<FlatRow>, b: seq<FlatRow>)
    ensures InvoiceNumbers(a + b) == InvoiceNumbers(a) + InvoiceNumbers(b)
  {
    if a == [] {
      assert a + b == b;
    } else {
      assert (a + b)[1..] == a[1..] + b;
      InvoiceNumbersAppend(a[1..], b);
    }
  }

  /** Line items of one invoice keep the relative order of their rows across any split of the input. */
  lemma {:induction false} LineItemsForAppend(a: seq<FlatRow>, b: seq<FlatRow>, k: int)
    ensures LineItemsFor(a + b, k) == LineItemsFor(a, k) + LineItemsFor(b, k)
  {
    if a == [] {
      assert a + b == b;
    } else {
      assert (a + b)[0] == a[0];
      assert (a + b)[1..] == a[1..] + b;
      LineItemsForAppend(a[1..], b, k);
      calc {
        LineItemsFor(a + b, k);
        ItemOfRowFor(a[0], k) + LineItemsFor(a[1..] + b, k);
        ItemOfRowFor(a[0], k) + (LineItemsFor(a[1..], k) + LineItemsFor(b, k));
        (ItemOfRowFor(a[0], k) + LineItemsFor(a[1..], k)) + LineItemsFor(b, k);
        LineItemsFor(a, k) + LineItemsFor(b, k);
      }
    }
  }

  /** An invoice number that no row carries has no line items. */
  lemma {:induction false} LineItemsForAbsent(rows: seq<FlatRow>, k: int)
    requires k !in InvoiceNumbers(rows)
    ensures LineItemsFor(rows, k) == []
  {
    if rows != [] {
      LineItemsForAbsent(rows[1..], k);
    }
  }

  /** `FirstIndex` is the unique minimal position of its number. */
  lemma FirstIndexIsUnique(rows: seq<FlatRow>, k: int, i: nat)
    requires i < |rows| && rows[i].invoiceNumber == k
    requires forall j :: 0 <= j < i ==> rows[j].invoiceNumber != k
    ensures k in InvoiceNumbers(rows) && FirstIndex(rows, k) == i
  {
    InvoiceNumbersMembership(rows, i);
  }

  /**
   * First writer wins: once invoice `k` has appeared in `a`, the rows `b` that follow never
   * change its customer or order summary; they only append their line items.
   */
  lemma FirstWriterWins(a: seq<FlatRow>, b: seq<FlatRow>, k: int)
    requires k in InvoiceNumbers(a)
    ensures k in InvoiceNumbers(a + b)
    ensures InvoiceFor(a + b, k).customerDetail == InvoiceFor(a, k).customerDetail
    ensures InvoiceFor(a + b, k).orderDetail == InvoiceFor(a, k).orderDetail
    ensures InvoiceFor(a + b, k).lineItems == InvoiceFor(a, k).lineItems + LineItemsFor(b, k)
  {
    InvoiceNumbersAppend(a, b);
    var i := FirstIndex(a, k);
    assert (a + b)[i] == a[i];
    FirstIndexIsUnique(a + b, k, i);
    LineItemsForAppend(a, b, k);
  }

  /** The row that introduces invoice `k` creates it from its own summaries, with or without a line item. */
  lemma FirstRowCreates(a: seq<FlatRow>, r: FlatRow)
    requires r.invoiceNumber !in InvoiceNumbers(a)
    ensures r.invoiceNumber in InvoiceNumbers(a + [r])
    ensures InvoiceFor(a + [r], r.invoiceNumber) ==
      Invoice(CustomerDetailOf(r), OrderDetailOf(r), OwnLineItems(r))
  {
    var k := r.invoiceNumber;
    InvoiceNumbersAppend(a, [r]);
    forall j | 0 <= j < |a| ensures (a + [r])[j].invoiceNumber != k {
      InvoiceNumbersMembership(a, j);
    }
    FirstIndexIsUnique(a + [r], k, |a|);
    LineItemsForAppend(a, [r], k);
    LineItemsForAbsent(a, k);
    assert LineItemsFor([r], k) == OwnLineItems(r) + LineItemsFor([], k);
  }

  // ---------------------------------------------------------------------------
  // The loop invariant: the map against the specification
  // ---------------------------------------------------------------------------

  /** What one more row does to the specification: it touches only the invoice it names. */
  lemma InvoiceForExtend(a: seq<FlatRow>, r: FlatRow)
    ensures InvoiceNumbers(a + [r]) == InvoiceNumbers(a) + {r.invoiceNumber}
    ensures forall k :: k in InvoiceNumbers(a) && k != r.invoiceNumber ==>
      InvoiceFor(a + [r], k) == InvoiceFor(a, k)
    ensures r.invoiceNumber in InvoiceNumbers(a) ==>
      InvoiceFor(a + [r], r.invoiceNumber) ==
      InvoiceFor(a, r.invoiceNumber).(lineItems := InvoiceFor(a, r.invoiceNumber).lineItems + OwnLineItems(r))
    ensures r.invoiceNumber !in InvoiceNumbers(a) ==>
      InvoiceFor(a + [r], r.invoiceNumber) ==
      Invoice(CustomerDetailOf(r), OrderDetailOf(r), OwnLineItems(r))
  {
    InvoiceNumbersAppend(a, [r]);
    assert LineItemsFor([r], r.invoiceNumber) == OwnLineItems(r) + LineItemsFor([], r.invoiceNumber);
    forall k | k in InvoiceNumbers(a) && k != r.invoiceNumber
      ensures InvoiceFor(a + [r], k) == InvoiceFor(a, k)
    {
      FirstWriterWins(a, [r], k);
      assert LineItemsFor([r], k) == [] + LineItemsFor([], k);
    }
    if r.invoiceNumber in InvoiceNumbers(a) {
      FirstWriterWins(a, [r], r.invoiceNumber);
    } else {
      FirstRowCreates(a, r);
    }
  }

  /**
   * `m` holds exactly the specification's invoices for `rows`, keyed by invoice number:
   * the invariant of the controller's `byInvoice` map.
   */
  predicate Indexes(m: map<int, Invoice>, rows: seq<FlatRow>) {
    && m.Keys == InvoiceNumbers(rows)
    && forall k :: k in m ==> m[k] == InvoiceFor(rows, k)
  }

  /** The entry the loop body leaves for row `r`'s invoice: created if new, then extended. */
  function EntryAfter(m: map<int, Invoice>, r: FlatRow): Invoice {
    var k := r.invoiceNumber;
    if k in m then m[k].(lineItems := m[k].lineItems + OwnLineItems(r))
    else Invoice(CustomerDetailOf(r), OrderDetailOf(r), OwnLineItems(r))
  }

  /** One more row keeps the map in step with the specification. */
  lemma IndexesStep(m: map<int, Invoice>, a: seq<FlatRow>, r: FlatRow, m': map<int, Invoice>, a': seq<FlatRow>)
    requires Indexes(m, a)
    requires m' == m[r.invoiceNumber := EntryAfter(m, r)] && a' == a + [r]
    ensures Indexes(m', a')
  {
    InvoiceForExtend(a, r);
  }

  /** `order` lists every element of `keys` exactly once: the iteration order of a `Map`'s keys. */
  ghost predicate ListsKeysOnce(order: seq<int>, keys: set<int>) {
    && (forall k :: k in order <==> k in keys)
    && Distinct(order)
  }

  lemma {:induction false} ListedOnceCardinality(order: seq<int>, keys: set<int>)
    requires ListsKeysOnce(order, keys)
    ensures |order| == |keys|
  {
    if order == [] {
      forall k ensures k !in keys {
        assert k !in order;
      }
      assert keys == {};
    } else {
      assert order[0] in order;
      var rest := keys - {order[0]};
      forall k ensures k in order[1..] <==> k in rest {
        if k in order[1..] {
          var j :| 1 <= j < |order| && order[j] == k;
        }
      }
      ListedOnceCardinality(order[1..], rest);
    }
  }

  /** Every invoice of the specification carries its own key as its invoice number. */
  lemma IndexedNumbers(m: map<int, Invoice>, rows: seq<FlatRow>, k: int)
    requires Indexes(m, rows) && k in m
    ensures InvoiceNumberOf(m[k]) == k
  {
  }

  /** The map's values in insertion order carry the keys in that order as invoice numbers. */
  lemma InsertionOrderNumbers(rows: seq<FlatRow>, m: map<int, Invoice>, order: seq<int>, values: seq<Invoice>)
    requires Indexes(m, rows)
    requires |values| == |order|
    requires forall j :: 0 <= j < |order| ==> order[j] in m && values[j] == m[order[j]]
    ensures forall j :: 0 <= j < |values| ==> InvoiceNumberOf(values[j]) == order[j]
  {
    forall j | 0 <= j < |order| ensures InvoiceNumberOf(values[j]) == order[j] {
      IndexedNumbers(m, rows, order[j]);
    }
  }

  /** Numbering the values by a duplicate-free list of the keys gives distinct keys and the key set. */
  lemma NumberedByKeys(values: seq<Invoice>, order: seq<int>, keys: set<int>)
    requires ListsKeysOnce(order, keys)
    requires |values| == |order|
    requires forall j :: 0 <= j < |values| ==> InvoiceNumberOf(values[j]) == order[j]
    ensures DistinctKeys(values, InvoiceNumberOf)
    ensures KeySet(values, InvoiceNumberOf) == keys
    ensures |values| == |keys|
  {
    forall k | k in keys ensures k in KeySet(values, InvoiceNumberOf) {
      var j :| 0 <= j < |order| && order[j] == k;
      assert values[j] in values;
    }
    forall n | n in KeySet(values, InvoiceNumberOf) ensures n in keys {
      var v :| v in values && InvoiceNumberOf(v) == n;
      var j :| 0 <= j < |values| && values[j] == v;
      assert order[j] in order;
    }
    ListedOnceCardinality(order, keys);
  }

  /** Every value of the map is the specification's invoice for its own number. */
  lemma ValuesAreSpecified(rows: seq<FlatRow>, m: map<int, Invoice>, order: seq<int>, values: seq<Invoice>)
    requires Indexes(m, rows)
    requires |values| == |order|
    requires forall j :: 0 <= j < |order| ==> order[j] in m && values[j] == m[order[j]]
    ensures forall v :: v in values ==> InvoiceNumberOf(v) in InvoiceNumbers(rows) && v == InvoiceFor(rows, InvoiceNumberOf(v))
  {
    forall v | v in values ensures InvoiceNumberOf(v) in InvoiceNumbers(rows) && v == InvoiceFor(rows, InvoiceNumberOf(v)) {
      var j :| 0 <= j < |values| && values[j] == v;
      IndexedNumbers(m, rows, order[j]);
    }
  }

  /** Sorting the map's values yields the endpoint's answer. */
  lemma SortedValuesAreAggregation(rows: seq<FlatRow>, values: seq<Invoice>)
    requires DistinctKeys(values, InvoiceNumberOf)
    requires KeySet(values, InvoiceNumberOf) == InvoiceNumbers(rows)
    requires forall v :: v in values ==> InvoiceNumberOf(v) in InvoiceNumbers(rows) && v == InvoiceFor(rows, InvoiceNumberOf(v))
    ensures AggregatedFrom(SortBy(values, InvoiceNumberOf), rows)
  {
    var invoices := SortBy(values, InvoiceNumberOf);
    SortByElements(values, InvoiceNumberOf);
    forall i | 0 <= i < |invoices|
      ensures InvoiceNumberOf(invoices[i]) in InvoiceNumbers(rows)
      ensures invoices[i] == InvoiceFor(rows, InvoiceNumberOf(invoices[i]))
    {
      assert invoices[i] in invoices;
    }
  }

  /** The map's values, listed in insertion order and then sorted, are the endpoint's answer. */
  lemma InsertionOrderSorted(rows: seq<FlatRow>, m: map<int, Invoice>, order: seq<int>, values: seq<Invoice>)
    requires Indexes(m, rows)
    requires ListsKeysOnce(order, m.Keys)
    requires |values| == |order|
    requires forall j :: 0 <= j < |order| ==> order[j] in m && values[j] == m[order[j]]
    ensures DistinctKeys(values, InvoiceNumberOf)
    ensures AggregatedFrom(SortBy(values, InvoiceNumberOf), rows)
    ensures |SortBy(values, InvoiceNumberOf)| == |InvoiceNumbers(rows)|
  {
    InsertionOrderNumbers(rows, m, order, values);
    NumberedByKeys(values, order, m.Keys);
    ValuesAreSpecified(rows, m, order, values);
    SortedValuesAreAggregation(rows, values);
    SortByElements(values, InvoiceNumberOf);
  }

  // ---------------------------------------------------------------------------
  // The controller's loop
  // ---------------------------------------------------------------------------

  /**
   * The body of `viewAllOrdersWithDetails` between reading `recordset` and `res.json`:
   * a single pass that fills a map keyed by invoice number (remembering the map's
   * insertion order, which `Array.from(byInvoice.values())` follows), then the sort.
   */
  method AggregateFlatRows(rows: seq<FlatRow>) returns (invoices: seq<Invoice>)
    ensures AggregatedFrom(invoices, rows)
    ensures |invoices| == |InvoiceNumbers(rows)|
  {
    var byInvoice: map<int, Invoice> := map[];
    var insertionOrder: seq<int> := [];
    for i := 0 to |rows|
      invariant Indexes(byInvoice, rows[..i])
      invariant ListsKeysOnce(insertionOrder, byInvoice.Keys)
    {
      var r := rows[i];
      var invoiceNumber := r.invoiceNumber;
      ghost var before := byInvoice;
      if invoiceNumber !in byInvoice {
        byInvoice := byInvoice[invoiceNumber := Invoice(CustomerDetailOf(r), OrderDetailOf(r), [])];
        insertionOrder := insertionOrder + [invoiceNumber];
      }
      if HasLineItem(r) {
        var inv := byInvoice[invoiceNumber];
        byInvoice := byInvoice[invoiceNumber := inv.(lineItems := inv.lineItems + [LineItemOf(r)])];
      }
      if invoiceNumber in before {
        assert before[invoiceNumber].lineItems + [] == before[invoiceNumber].lineItems;
      } else {
        assert [] + OwnLineItems(r) == OwnLineItems(r);
      }
      assert byInvoice == before[invoiceNumber := EntryAfter(before, r)];
      assert rows[..i + 1] == rows[..i] + [r];
      IndexesStep(before, rows[..i], r, byInvoice, rows[..i + 1]);
    }
    assert rows[..|rows|] == rows;
    var values := seq(|insertionOrder|, j requires 0 <= j < |insertionOrder| => byInvoice[insertionOrder[j]]);
    InsertionOrderSorted(rows, byInvoice, insertionOrder, values);
    invoices := SortBy(values, InvoiceNumberOf);
  }
}
