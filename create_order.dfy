/**
 * `createOrder`: resolve the customer id, the optional invoice date and the item list
 * from a request body that may use either the flat shape or the `invoiceData`/`products`
 * shape, validate them in a fixed order, and project the items to the
 * `{ productId, quantity }` pairs sent to `dbo.uspOrder_Create`.
 *
 * Parsing a date (`new Date(raw)` followed by the `getTime()` NaN check) is the parameter
 * `parseDate`: `None` where the engine yields an invalid date, otherwise the timestamp.
 */
module CreateOrder {
  import opened Wrappers
  import opened JsValues
  import opened Guid
  import opened Failures

  const CustomerIdMessage: string := "customerId must be a GUID"
  const ProductsMessage: string := "products must be a non-empty array"
  const ProductIdMessage: string := "Each products[].productId must be a GUID"
  const QuantityMessage: string := "Each products[].quantity must be a positive integer"
  const InvoiceDateMessage: string := "invoiceDate must be a valid date string"

  /** One element of the serialised `itemsJson` list. */
  datatype ItemEntry = ItemEntry(productId: string, quantity: int)

  /** What the stored procedure receives: the customer, the date if one was given, the items. */
  datatype OrderCommand = OrderCommand(customerId: string, invoiceDate: Option<int>, items: seq<ItemEntry>)

  // ---------------------------------------------------------------------------
  // Field resolution through `||` chains
  // ---------------------------------------------------------------------------

  /** `req.body.invoiceData || {}`: always an object-like truthy value whose fields can be read. */
  function InvoiceData(body: JsValue): (d: JsValue)
    requires !Nullish(body)
    ensures Truthy(d) && !Nullish(d)
    ensures Truthy(Get(body, "invoiceData")) ==> d == Get(body, "invoiceData")
    ensures !Truthy(Get(body, "invoiceData")) ==> d == Obj(map[])
  {
    OrChain([Get(body, "invoiceData"), Obj(map[])])
  }

  /** `req.body.customerId || invoiceData.customerId`: a truthy top-level id wins. */
  function ResolvedCustomerId(body: JsValue): (c: JsValue)
    requires !Nullish(body)
    ensures Truthy(Get(body, "customerId")) ==> c == Get(body, "customerId")
    ensures !Truthy(Get(body, "customerId")) ==> c == Get(InvoiceData(body), "customerId")
  {
    OrChain([Get(body, "customerId"), Get(InvoiceData(body), "customerId")])
  }

  /** `req.body.invoiceDate || invoiceData.invoiceDate`: a truthy top-level date wins. */
  function ResolvedInvoiceDate(body: JsValue): (raw: JsValue)
    requires !Nullish(body)
    ensures Truthy(Get(body, "invoiceDate")) ==> raw == Get(body, "invoiceDate")
    ensures !Truthy(Get(body, "invoiceDate")) ==> raw == Get(InvoiceData(body), "invoiceDate")
  {
    OrChain([Get(body, "invoiceDate"), Get(InvoiceData(body), "invoiceDate")])
  }

  /** `req.body.products || req.body.lineItems || req.body.items`: the first truthy list, else `items`. */
  function ResolvedProducts(body: JsValue): (p: JsValue)
    requires !Nullish(body)
    ensures Truthy(Get(body, "products")) ==> p == Get(body, "products")
    ensures !Truthy(Get(body, "products")) && Truthy(Get(body, "lineItems")) ==> p == Get(body, "lineItems")
    ensures !Truthy(Get(body, "products")) && !Truthy(Get(body, "lineItems")) ==> p == Get(body, "items")
  {
    var chain := [Get(body, "products"), Get(body, "lineItems"), Get(body, "items")];
    assert chain[1] == Get(body, "lineItems");
    OrChain(chain)
  }

  // ---------------------------------------------------------------------------
  // The validation rules
  // ---------------------------------------------------------------------------

  /** `Array.isArray(v) && v.length !== 0`. */
  predicate IsNonEmptyArray(v: JsValue) {
    v.Arr? && |v.elems| != 0
  }

  /** The body passes the two whole-request checks: a GUID customer id and a non-empty item array. */
  predicate PassesRequestChecks(body: JsValue) {
    !Nullish(body) && IsGuid(ResolvedCustomerId(body)) && IsNonEmptyArray(ResolvedProducts(body))
  }

  /**
   * The error the loop body raises for item `p`, checking its `productId` before its
   * `quantity`; reading a field of a `null` item throws a `TypeError`.
   */
  function ItemCheck(p: JsValue): Option<Failure> {
    if Nullish(p) then Some(ReadFailure(p, "productId"))
    else if !IsGuid(Get(p, "productId")) then Some(BadRequest(ProductIdMessage))
    else if !IsPositiveInteger(Get(p, "quantity")) then Some(BadRequest(QuantityMessage))
    else None
  }

  predicate ItemAccepted(p: JsValue) {
    ItemCheck(p).None?
  }

  predicate AllItemsAccepted(ps: seq<JsValue>) {
    forall j :: 0 <= j < |ps| ==> ItemAccepted(ps[j])
  }

  /** Item `i` is the first the loop rejects: every earlier item passed. */
  predicate FirstRejected(ps: seq<JsValue>, i: int) {
    && 0 <= i < |ps|
    && !ItemAccepted(ps[i])
    && forall j :: 0 <= j < i ==> ItemAccepted(ps[j])
  }

  /** When not every item passes, exactly one item is the first rejected one. */
  lemma {:induction false} FirstRejectedExists(ps: seq<JsValue>)
    requires !AllItemsAccepted(ps)
    ensures exists i :: FirstRejected(ps, i)
    ensures forall i, j :: FirstRejected(ps, i) && FirstRejected(ps, j) ==> i == j
  {
    if ItemAccepted(ps[0]) {
      FirstRejectedExists(ps[1..]);
      var i :| FirstRejected(ps[1..], i);
      forall j | 0 <= j < i + 1 ensures ItemAccepted(ps[j]) {
        if j > 0 { assert ps[j] == ps[1..][j - 1]; }
      }
      assert FirstRejected(ps, i + 1);
    } else {
      assert FirstRejected(ps, 0);
    }
  }

  /** An item that passes is a GUID string and a positive whole number. */
  lemma AcceptedItemShape(p: JsValue)
    requires ItemAccepted(p)
    ensures !Nullish(p)
    ensures Get(p, "productId").Str? && MatchesGuidPattern(Get(p, "productId").s)
    ensures Get(p, "quantity").Num? && Get(p, "quantity").n.Finite?
    ensures IsPositiveInteger(Get(p, "quantity"))
    ensures Get(p, "quantity").n.val.Floor >= 1
  {
  }

  /** `raw !== undefined && raw !== null && raw !== ""`: whether a date was supplied at all. */
  predicate DatePresent(raw: JsValue) {
    raw != Undefined && raw != Null && raw != Str("")
  }

  // ---------------------------------------------------------------------------
  // The projection `products.map(p => ({ productId: p.productId, quantity: p.quantity }))`
  // ---------------------------------------------------------------------------

  function ProjectItems(ps: seq<JsValue>): (items: seq<ItemEntry>)
    requires AllItemsAccepted(ps)
    ensures |items| == |ps|
    ensures forall i :: 0 <= i < |ps| ==>
      items[i].productId == Get(ps[i], "productId").s &&
      items[i].quantity as real == Get(ps[i], "quantity").n.val &&
      items[i].quantity > 0
  {
    if ps == [] then []
    else
      assert ItemAccepted(ps[0]);
      [ItemEntry(Get(ps[0], "productId").s, Get(ps[0], "quantity").n.val.Floor)] + ProjectItems(ps[1..])
  }

  /** The projection keeps the order of the items: it maps a concatenation part by part. */
  lemma {:induction false} ProjectItemsAppend(a: seq<JsValue>, b: seq<JsValue>)
    requires AllItemsAccepted(a) && AllItemsAccepted(b)
    ensures AllItemsAccepted(a + b)
    ensures ProjectItems(a + b) == ProjectItems(a) + ProjectItems(b)
  {
    assert forall j :: 0 <= j < |a + b| ==> (a + b)[j] == if j < |a| then a[j] else b[j - |a|];
    if a == [] {
      assert a + b == b;
    } else {
      assert (a + b)[1..] == a[1..] + b;
      ProjectItemsAppend(a[1..], b);
    }
  }

  // ---------------------------------------------------------------------------
  // The handler
  // ---------------------------------------------------------------------------

  /**
   * The `for (const p of products)` loop: stop at the first item that fails a check and
   * report that item's error.
   */
  method ValidateItems(ps: seq<JsValue>) returns (failure: Option<Failure>)
    ensures failure.None? <==> AllItemsAccepted(ps)
    ensures forall i :: FirstRejected(ps, i) ==> failure == ItemCheck(ps[i])
  {
    for i := 0 to |ps|
      invariant forall j :: 0 <= j < i ==> ItemAccepted(ps[j])
    {
      var p := ps[i];
      if Nullish(p) {
        return Some(ReadFailure(p, "productId"));
      }
      if !IsGuid(Get(p, "productId")) {
        return Some(BadRequest(ProductIdMessage));
      }
      var quantity := Get(p, "quantity");
      if !IsInteger(quantity) || quantity.n.val <= 0.0 {
        return Some(BadRequest(QuantityMessage));
      }
    }
    return None;
  }

  /**
   * The `try` block of `createOrder` up to the database call: the first failing rule
   * decides the error; otherwise the command the stored procedure receives.
   */
  method CreateOrder(body: JsValue, parseDate: JsValue -> Option<int>) returns (r: Result<OrderCommand, Failure>)
    ensures Nullish(body) ==> r == Err(ReadFailure(body, "invoiceData"))
    ensures !Nullish(body) && !IsGuid(ResolvedCustomerId(body)) ==> r == Err(BadRequest(CustomerIdMessage))
    ensures !Nullish(body) && IsGuid(ResolvedCustomerId(body)) && !IsNonEmptyArray(ResolvedProducts(body)) ==>
      r == Err(BadRequest(ProductsMessage))
    ensures PassesRequestChecks(body) ==>
      forall i :: FirstRejected(ResolvedProducts(body).elems, i) ==>
        r == Err(ItemCheck(ResolvedProducts(body).elems[i]).value)
    ensures
      (&& PassesRequestChecks(body)
       && AllItemsAccepted(ResolvedProducts(body).elems)
       && DatePresent(ResolvedInvoiceDate(body))
       && parseDate(ResolvedInvoiceDate(body)).None?) ==>
      r == Err(BadRequest(InvoiceDateMessage))
    ensures r.Ok? <==>
      && PassesRequestChecks(body)
      && AllItemsAccepted(ResolvedProducts(body).elems)
      && (DatePresent(ResolvedInvoiceDate(body)) ==> parseDate(ResolvedInvoiceDate(body)).Some?)
    ensures r.Ok? ==>
      && r.value.customerId == ResolvedCustomerId(body).s
      && r.value.invoiceDate == (if DatePresent(ResolvedInvoiceDate(body)) then parseDate(ResolvedInvoiceDate(body)) else None)
      && r.value.items == ProjectItems(ResolvedProducts(body).elems)
  {
    if Nullish(body) {
      return Err(ReadFailure(body, "invoiceData"));
    }
    var customerId := ResolvedCustomerId(body);
    var invoiceDateRaw := ResolvedInvoiceDate(body);
    var products := ResolvedProducts(body);

    if !IsGuid(customerId) {
      return Err(BadRequest(CustomerIdMessage));
    }
    if !products.Arr? || |products.elems| == 0 {
      return Err(BadRequest(ProductsMessage));
    }

    var ps := products.elems;
    var itemFailure := ValidateItems(ps);
    if itemFailure.Some? {
      return Err(itemFailure.value);
    }

    var invoiceDateValue: Option<int> := None;
    if DatePresent(invoiceDateRaw) {
      var d := parseDate(invoiceDateRaw);
      if d.None? {
        return Err(BadRequest(InvoiceDateMessage));
      }
      invoiceDateValue := d;
    }

    r := Ok(OrderCommand(customerId.s, invoiceDateValue, ProjectItems(ps)));
  }

  // ---------------------------------------------------------------------------
  // The `catch` block: "does not exist" becomes a 400
  // ---------------------------------------------------------------------------

  /** `c.toLowerCase()` for an ASCII capital; every other character is kept. */
  function LowerChar(c: char): char {
    if 'A' <= c <= 'Z' then (c as int + 32) as char else c
  }

  /** `String.prototype.toLowerCase` on the ASCII letters. */
  function ToLowerAscii(s: string): (t: string)
    ensures |t| == |s|
    ensures forall i :: 0 <= i < |s| ==> !('A' <= t[i] <= 'Z')
    ensures forall i :: 0 <= i < |s| && !('A' <= s[i] <= 'Z') ==> t[i] == s[i]
    ensures forall i :: 0 <= i < |s| && 'A' <= s[i] <= 'Z' ==> t[i] as int == s[i] as int + 32
  {
    seq(|s|, i requires 0 <= i < |s| => LowerChar(s[i]))
  }

  /** `t` occurs in `s` starting at position `i`. */
  predicate OccursAt(s: string, t: string, i: int) {
    0 <= i && i + |t| <= |s| && s[i..i + |t|] == t
  }

  /** `s.includes(t)`. */
  function Includes(s: string, t: string): bool {
    if |s| < |t| then false else s[..|t|] == t || Includes(s[1..], t)
  }

  /** A positive answer of `includes` names a position where `t` occurs. */
  lemma {:induction false} OccursWhenIncluded(s: string, t: string)
    requires Includes(s, t)
    ensures exists i :: OccursAt(s, t, i)
  {
    if s[..|t|] == t {
      assert OccursAt(s, t, 0);
    } else {
      OccursWhenIncluded(s[1..], t);
      var i :| OccursAt(s[1..], t, i);
      assert s[i + 1..i + 1 + |t|] == s[1..][i..i + |t|];
      assert OccursAt(s, t, i + 1);
    }
  }

  /** Every occurrence of `t` in `s` makes `includes` answer true. */
  lemma {:induction false} IncludedWhenOccurs(s: string, t: string, i: int)
    requires OccursAt(s, t, i)
    ensures Includes(s, t)
  {
    if i == 0 {
      assert s[..|t|] == s[0..|t|];
    } else if s[..|t|] != t {
      assert s[1..][i - 1..i - 1 + |t|] == s[i..i + |t|];
      IncludedWhenOccurs(s[1..], t, i - 1);
    }
  }

  const DoesNotExist: string := "does not exist"

  /** `!err.statusCode`: no status, or the falsy status 0. */
  predicate LacksStatus(f: Failure) {
    f.statusCode.None? || f.statusCode == Some(0)
  }

  /**
   * Errors that carry no status and whose lower-cased message mentions "does not exist"
   * (the database's wording for a missing customer or product) get status 400; every
   * other error passes through unchanged.
   */
  function Reclassify(f: Failure): (g: Failure)
    ensures g.message == f.message
    ensures !LacksStatus(f) ==> g == f
    ensures g == f || g == f.(statusCode := Some(400))
  {
    if LacksStatus(f) && Includes(ToLowerAscii(f.message), DoesNotExist) then f.(statusCode := Some(400))
    else f
  }

  /**
   * Which errors become 400s: exactly the status-less ones in whose lower-cased message
   * "does not exist" occurs at some position.
   */
  lemma ReclassifyExactly(f: Failure)
    ensures LacksStatus(f) && (exists i :: OccursAt(ToLowerAscii(f.message), DoesNotExist, i)) ==>
      Reclassify(f).statusCode == Some(400)
    ensures (forall i :: !OccursAt(ToLowerAscii(f.message), DoesNotExist, i)) ==> Reclassify(f) == f
  {
    var lower := ToLowerAscii(f.message);
    if exists i :: OccursAt(lower, DoesNotExist, i) {
      var i :| OccursAt(lower, DoesNotExist, i);
      IncludedWhenOccurs(lower, DoesNotExist, i);
    }
    if Includes(lower, DoesNotExist) {
      OccursWhenIncluded(lower, DoesNotExist);
    }
  }

  /** Every character of a word that occurs in `s` is a character of `s`. */
  lemma OccurrenceCharacters(s: string, t: string, i: int)
    requires OccursAt(s, t, i)
    ensures forall c :: c in t ==> c in s
  {
    forall c | c in t ensures c in s {
      var j :| 0 <= j < |t| && t[j] == c;
      assert s[i..i + |t|][j] == s[i + j];
    }
  }

  /** Lower-casing a string without `x` or `X` gives a string without `x`. */
  lemma LowerWithoutX(s: string)
    requires 'x' !in s && 'X' !in s
    ensures 'x' !in ToLowerAscii(s)
  {
    var t := ToLowerAscii(s);
    forall i | 0 <= i < |t| ensures t[i] != 'x' {
      assert s[i] in s;
    }
  }

  /** The message of a read failure has an `x` only if the key has one. */
  lemma ReadFailureWithoutX(base: JsValue, key: string)
    requires Nullish(base)
    requires 'x' !in key && 'X' !in key
    ensures 'x' !in ReadFailure(base, key).message && 'X' !in ReadFailure(base, key).message
  {
    var nullish := if base.Null? then "null" else "undefined";
    var m := ReadFailure(base, key).message;
    assert m == "Cannot read properties of " + nullish + " (reading '" + key + "')";
    assert 'x' !in "Cannot read properties of " && 'X' !in "Cannot read properties of ";
    assert 'x' !in nullish && 'X' !in nullish;
    assert 'x' !in " (reading '" && 'X' !in " (reading '";
    assert 'x' !in "')" && 'X' !in "')";
  }

  /**
   * The `TypeError` of a read from a nullish value passes through the `catch` block with
   * no status, for every key without an `x` (the keys read are `invoiceData` and
   * `productId`): its lower-cased message has no `x`, so "does not exist" is not in it.
   */
  lemma ReadFailurePassesThrough(base: JsValue, key: string)
    requires Nullish(base)
    requires 'x' !in key && 'X' !in key
    ensures Reclassify(ReadFailure(base, key)) == ReadFailure(base, key)
    ensures Reclassify(ReadFailure(base, key)).statusCode.None?
  {
    var f := ReadFailure(base, key);
    var lower := ToLowerAscii(f.message);
    ReadFailureWithoutX(base, key);
    LowerWithoutX(f.message);
    assert 'x' in DoesNotExist by {
      assert DoesNotExist[10] == 'x';
    }
    forall i ensures !OccursAt(lower, DoesNotExist, i) {
      if OccursAt(lower, DoesNotExist, i) {
        OccurrenceCharacters(lower, DoesNotExist, i);
      }
    }
    ReclassifyExactly(f);
  }

  /** The read failures the controller can raise, for `invoiceData` and `productId`, keep their missing status. */
  lemma ControllerReadFailuresPassThrough(base: JsValue)
    requires Nullish(base)
    ensures Reclassify(ReadFailure(base, "invoiceData")) == ReadFailure(base, "invoiceData")
    ensures Reclassify(ReadFailure(base, "productId")) == ReadFailure(base, "productId")
  {
    ReadFailurePassesThrough(base, "invoiceData");
    ReadFailurePassesThrough(base, "productId");
  }

  /** Reclassifying twice is reclassifying once. */
  lemma ReclassifyIdempotent(f: Failure)
    ensures Reclassify(Reclassify(f)) == Reclassify(f)
  {
  }

  lemma LowerCaseMessage()
    ensures ToLowerAscii("DOES NOT EXIST") == DoesNotExist
  {
    var m := ToLowerAscii("DOES NOT EXIST");
    forall i | 0 <= i < |m| ensures m[i] == DoesNotExist[i] {
      assert m[i] == LowerChar("DOES NOT EXIST"[i]);
    }
  }

  /** The match ignores letter case: a database message in capitals is still reclassified. */
  lemma ReclassifyIgnoresCase()
    ensures Reclassify(Failure(None, "DOES NOT EXIST")).statusCode == Some(400)
  {
    LowerCaseMessage();
    assert OccursAt(ToLowerAscii("DOES NOT EXIST"), DoesNotExist, 0);
  }

  // ---------------------------------------------------------------------------
  // A client of the contract
  // ---------------------------------------------------------------------------

  /** The request shape in the controller's own comment, `{ invoiceData: { customerId }, products: [...] }`, is accepted with no date. */
  method NestedShapeExample(parseDate: JsValue -> Option<int>) {
    var guid := "550e8400-e29b-41d4-a716-446655440000";
    GuidExamples();
    var item := Obj(map["productId" := Str(guid), "quantity" := Num(Finite(2.0))]);
    var body := Obj(map["invoiceData" := Obj(map["customerId" := Str(guid)]), "products" := Arr([item])]);
    assert Get(body, "customerId") == Undefined;
    assert ResolvedCustomerId(body) == Str(guid);
    assert ResolvedProducts(body) == Arr([item]);
    assert ResolvedInvoiceDate(body) == Undefined;
    assert ItemAccepted(item);
    assert AllItemsAccepted([item]);
    var items := ProjectItems([item]);
    assert items[0].quantity as real == 2.0;
    assert items == [ItemEntry(guid, 2)];
    var r := CreateOrder(body, parseDate);
    assert r.Ok?;
    assert r == Ok(OrderCommand(guid, None, [ItemEntry(guid, 2)]));
  }

  /** A bad customer id is reported before an empty item list. */
  method ValidationOrderExample(parseDate: JsValue -> Option<int>) {
    GuidExamples();
    var bad := Obj(map["customerId" := Str("not-a-guid"), "products" := Arr([])]);
    assert Get(bad, "customerId") == Str("not-a-guid");
    var r := CreateOrder(bad, parseDate);
    assert r == Err(BadRequest(CustomerIdMessage));
  }

  /** A zero quantity is rejected with the quantity message. */
  method ZeroQuantityExample(parseDate: JsValue -> Option<int>) {
    var guid := "550e8400-e29b-41d4-a716-446655440000";
    GuidExamples();
    var zero := Obj(map["productId" := Str(guid), "quantity" := Num(Finite(0.0))]);
    var body := Obj(map["customerId" := Str(guid), "products" := Arr([zero])]);
    assert ResolvedCustomerId(body) == Str(guid);
    assert ResolvedProducts(body).elems == [zero];
    assert FirstRejected([zero], 0);
    var r := CreateOrder(body, parseDate);
    assert r == Err(BadRequest(QuantityMessage));
  }

  /** A date the engine cannot parse is rejected once the customer and the items have passed. */
  method InvalidDateExample(parseDate: JsValue -> Option<int>)
    requires parseDate(Str("not-a-date")).None?
  {
    var guid := "550e8400-e29b-41d4-a716-446655440000";
    GuidExamples();
    var three := Obj(map["productId" := Str(guid), "quantity" := Num(Finite(3.0))]);
    var dated := Obj(map["customerId" := Str(guid), "invoiceDate" := Str("not-a-date"), "items" := Arr([three])]);
    assert ResolvedCustomerId(dated) == Str(guid);
    assert ResolvedInvoiceDate(dated) == Str("not-a-date");
    assert ResolvedProducts(dated).elems == [three];
    assert ItemAccepted(three);
    assert AllItemsAccepted([three]);
    var r := CreateOrder(dated, parseDate);
    assert r == Err(BadRequest(InvoiceDateMessage));
  }
}

