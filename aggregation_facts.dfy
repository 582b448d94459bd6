/**
 * Consequences of the specification of `viewAllOrdersWithDetails`: its answer is
 * unique, it reports every line-item row exactly once, and a worked example.
 */
module AggregationFacts {
  import opened JsValues
  import opened Invoices
  import opened Sorting
  import opened FlatAggregation

  /** The answer is determined by the rows: two aggregations of the same rows are equal. */
  lemma AggregationIsUnique(x: seq<Invoice>, y: seq<Invoice>, rows: seq<FlatRow>)
    requires AggregatedFrom(x, rows) && AggregatedFrom(y, rows)
    ensures x == y
  {
    AscendingKeysDetermined(x, y, InvoiceNumberOf);
    forall i | 0 <= i < |x| ensures x[i] == y[i] {
      assert InvoiceNumberOf(x[i]) == InvoiceNumberOf(y[i]);
    }
  }

  // ---------------------------------------------------------------------------
  // Every line-item row is reported exactly once
  // ---------------------------------------------------------------------------

  /** The number of rows that carry a line item (a truthy `lineItemId`). */
  function ItemRowCount(rows: seq<FlatRow>): nat {
    if rows == [] then 0 else (if HasLineItem(rows[0]) then 1 else 0) + ItemRowCount(rows[1..])
  }

  /** The number of line items across all invoices of a response. */
  function TotalLineItems(invoices: seq<Invoice>): nat {
    if invoices == [] then 0 else |invoices[0].lineItems| + TotalLineItems(invoices[1..])
  }

  /** The invoice numbers of a response, in its order. */
  function NumbersOf(invoices: seq<Invoice>): (ks: seq<int>)
    ensures |ks| == |invoices|
    ensures forall i :: 0 <= i < |ks| ==> ks[i] == InvoiceNumberOf(invoices[i])
  {
    if invoices == [] then [] else [InvoiceNumberOf(invoices[0])] + NumbersOf(invoices[1..])
  }

  /** The specification's line-item count summed over the invoice numbers `ks`. */
  function ItemsOver(rows: seq<FlatRow>, ks: seq<int>): nat {
    if ks == [] then 0 else |LineItemsFor(rows, ks[0])| + ItemsOver(rows, ks[1..])
  }

  function Occurrences(ks: seq<int>, k: int): nat {
    if ks == [] then 0 else (if ks[0] == k then 1 else 0) + Occurrences(ks[1..], k)
  }

  lemma {:induction false} OccursOnce(ks: seq<int>, k: int)
    requires Distinct(ks)
    ensures Occurrences(ks, k) == if k in ks then 1 else 0
  {
    if ks != [] {
      OccursOnce(ks[1..], k);
      if ks[0] == k {
        forall j | 0 <= j < |ks[1..]| ensures ks[1..][j] != k {
          assert ks[1..][j] == ks[j + 1];
        }
      } else {
        assert k in ks <==> k in ks[1..];
      }
    }
  }

  lemma {:induction false} ItemsOverNoRows(ks: seq<int>)
    ensures ItemsOver([], ks) == 0
  {
    if ks != [] {
      ItemsOverNoRows(ks[1..]);
    }
  }

  /** One more leading row adds one item to each listed occurrence of its invoice number, if it carries one. */
  lemma {:induction false} ItemsOverCons(r: FlatRow, rest: seq<FlatRow>, ks: seq<int>)
    ensures ItemsOver([r] + rest, ks) ==
      ItemsOver(rest, ks) + (if HasLineItem(r) then Occurrences(ks, r.invoiceNumber) else 0)
  {
    assert ([r] + rest)[0] == r;
    assert ([r] + rest)[1..] == rest;
    if ks != [] {
      ItemsOverCons(r, rest, ks[1..]);
    }
  }

  /** Summed over a duplicate-free list that names every row's invoice, the items are the item rows. */
  lemma {:induction false} ItemsOverCountsRows(rows: seq<FlatRow>, ks: seq<int>)
    requires Distinct(ks)
    requires forall i :: 0 <= i < |rows| ==> rows[i].invoiceNumber in ks
    ensures ItemsOver(rows, ks) == ItemRowCount(rows)
  {
    if rows == [] {
      ItemsOverNoRows(ks);
    } else {
      assert rows == [rows[0]] + rows[1..];
      ItemsOverCons(rows[0], rows[1..], ks);
      OccursOnce(ks, rows[0].invoiceNumber);
      forall i | 0 <= i < |rows[1..]| ensures rows[1..][i].invoiceNumber in ks {
        assert rows[1..][i] == rows[i + 1];
      }
      ItemsOverCountsRows(rows[1..], ks);
    }
  }

  /** Each invoice of a response holds the specification's line items for its own number. */
  lemma {:induction false} TotalIsItemsOver(invoices: seq<Invoice>, rows: seq<FlatRow>)
    requires forall i :: 0 <= i < |invoices| ==>
      InvoiceNumberOf(invoices[i]) in InvoiceNumbers(rows) &&
      invoices[i] == InvoiceFor(rows, InvoiceNumberOf(invoices[i]))
    ensures TotalLineItems(invoices) == ItemsOver(rows, NumbersOf(invoices))
  {
    if invoices != [] {
      assert NumbersOf(invoices)[1..] == NumbersOf(invoices[1..]);
      forall i | 0 <= i < |invoices[1..]|
        ensures InvoiceNumberOf(invoices[1..][i]) in InvoiceNumbers(rows)
        ensures invoices[1..][i] == InvoiceFor(rows, InvoiceNumberOf(invoices[1..][i]))
      {
        assert invoices[1..][i] == invoices[i + 1];
      }
      TotalIsItemsOver(invoices[1..], rows);
    }
  }

  /**
   * No line item is lost or duplicated: the response holds exactly as many line items as
   * there are rows with a truthy `lineItemId`.
   */
  lemma TotalLineItemsMatchRows(invoices: seq<Invoice>, rows: seq<FlatRow>)
    requires AggregatedFrom(invoices, rows)
    ensures TotalLineItems(invoices) == ItemRowCount(rows)
  {
    var ks := NumbersOf(invoices);
    TotalIsItemsOver(invoices, rows);
    forall i | 0 <= i < |rows| ensures rows[i].invoiceNumber in ks {
      InvoiceNumbersMembership(rows, i);
      var v :| v in invoices && InvoiceNumberOf(v) == rows[i].invoiceNumber;
      var j :| 0 <= j < |invoices| && invoices[j] == v;
      assert ks[j] == rows[i].invoiceNumber;
    }
    ItemsOverCountsRows(rows, ks);
  }

  // ---------------------------------------------------------------------------
  // A worked example: an invoice without items, then one with two
  // ---------------------------------------------------------------------------

  /** A flat row with the given invoice number and line-item columns; every other column is null. */
  function ExampleRow(n: int, lineItemId: JsValue, productId: JsValue, quantity: JsValue): FlatRow {
    FlatRow(n, Null, Null, Null, Null, Null, Null, Null, Null, Null, Null, Null, Null,
            lineItemId, productId, quantity, Null, Null, Null)
  }

  const ExampleRows: seq<FlatRow> := [
    ExampleRow(2, Null, Null, Null),
    ExampleRow(1, Str("li1"), Str("p1"), Num(Finite(2.0))),
    ExampleRow(1, Str("li2"), Str("p2"), Num(Finite(1.0)))
  ]

  lemma ExampleRowsGroups()
    ensures InvoiceNumbers(ExampleRows) == {1, 2}
    ensures FirstIndex(ExampleRows, 2) == 0 && FirstIndex(ExampleRows, 1) == 1
    ensures LineItemsFor(ExampleRows, 1) == [LineItemOf(ExampleRows[1]), LineItemOf(ExampleRows[2])]
    ensures LineItemsFor(ExampleRows, 2) == []
  {
    var rows := ExampleRows;
    assert rows[1..][1..][1..] == [];
  }

  /** The invoice the specification assigns to number `k` carries `k`. */
  lemma InvoiceForNumber(rows: seq<FlatRow>, k: int)
    requires k in InvoiceNumbers(rows)
    ensures InvoiceNumberOf(InvoiceFor(rows, k)) == k
  {
  }

  /** The example rows group into invoice 1 followed by invoice 2. */
  lemma ExampleExpected(expected: seq<Invoice>)
    requires expected == [InvoiceFor(ExampleRows, 1), InvoiceFor(ExampleRows, 2)]
    ensures AggregatedFrom(expected, ExampleRows)
  {
    ExampleRowsGroups();
    InvoiceForNumber(ExampleRows, 1);
    InvoiceForNumber(ExampleRows, 2);
    assert StrictlyAscendingBy(expected, InvoiceNumberOf);
    assert KeySet(expected, InvoiceNumberOf) == {1, 2} by {
      assert expected[0] in expected && expected[1] in expected;
    }
  }

  /**
   * Invoice 2 comes first in the rows and has no line item; invoice 1 has two. The answer
   * lists invoice 1 (with "li1" then "li2") before invoice 2 (with no line items).
   */
  lemma ExampleAggregation(invoices: seq<Invoice>)
    requires AggregatedFrom(invoices, ExampleRows)
    ensures NumbersOf(invoices) == [1, 2]
    ensures invoices[0].lineItems == [LineItemOf(ExampleRows[1]), LineItemOf(ExampleRows[2])]
    ensures invoices[0].lineItems[0].lineItemId == Str("li1")
    ensures invoices[1].lineItems == []
  {
    ExampleRowsGroups();
    var expected := [InvoiceFor(ExampleRows, 1), InvoiceFor(ExampleRows, 2)];
    ExampleExpected(expected);
    InvoiceForNumber(ExampleRows, 1);
    InvoiceForNumber(ExampleRows, 2);
    AggregationIsUnique(invoices, expected, ExampleRows);
    assert NumbersOf(invoices) == [NumbersOf(invoices)[0], NumbersOf(invoices)[1]];
  }
}
