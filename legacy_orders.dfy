/**
 * The second copy of the order routes (backend/src/routes/order.js), which
 * the server does not mount. Its handlers write each line's unit price and
 * line total into the request's own item objects before inserting them, and
 * price each line by the `unit_price` and `is_small` columns of the product
 * (order.js:209, 341), where the mounted routes read `price`. The catalogue
 * routes never write a `unit_price` column, so `unitPrices` stands for
 * whatever that read returns. Each handler leaves the tables as the mounted
 * routes would with `unitPrices` as their price lookup; it agrees with what
 * the mounted routes actually store only when `unitPrices` equals their
 * `price` lookup.
 */
module LegacyOrders {
  import opened Common
  import opened Pricing
  import opened Orders

  /** `calculateLineTotal` as this file writes it: complete groups of three, then the remainder. */
  function LegacyLineTotal(quantity: nat, unitPrice: int, isSmall: bool): int
  {
    if isSmall then
      var completeGroups := quantity / 3;
      var remaining := quantity % 3;
      completeGroups * BundlePrice + remaining * unitPrice
    else
      quantity * unitPrice
  }

  /** The two copies of the pricing rule agree on every input. */
  lemma LineTotalsAgree(quantity: nat, unitPrice: int, isSmall: bool)
    ensures LegacyLineTotal(quantity, unitPrice, isSmall) == LineTotal(quantity, unitPrice, isSmall)
    ensures LegacyLineTotal(quantity, unitPrice, isSmall)
            == if isSmall then Bundled(quantity, unitPrice) else Repeated(quantity, unitPrice)
  {
    LineTotalMatchesReference(quantity, unitPrice);
  }

  /** A request item object: what the client sent, plus the two fields the handler writes into it. */
  datatype LegacyItem = LegacyItem(request: RequestItem, unitPrice: Option<int>, lineTotal: Option<int>)

  function Requests(items: seq<LegacyItem>): (r: seq<RequestItem>)
    ensures |r| == |items|
  {
    seq(|items|, k requires 0 <= k < |items| => items[k].request)
  }

  /** The request as the mounted routes would read it; a null array is an absent `items`. */
  function LegacyRequest(businessDay: Option<string>, isDelivery: Option<bool>, deliveryCost: Option<int>,
                         items: Option<seq<LegacyItem>>): OrderRequest
  {
    OrderRequest(businessDay, isDelivery, deliveryCost, if items.None? then None else Some(Requests(items.value)))
  }

  /** An item object once the handler has written its unit price and line total into it. */
  function Annotated(item: LegacyItem, line: PricedLine): LegacyItem
  {
    item.(unitPrice := Some(line.unitPrice), lineTotal := Some(line.lineTotal))
  }

  /** The item objects once the first `|lines|` of them have been priced. */
  function AnnotateAll(items: seq<LegacyItem>, lines: seq<PricedLine>): (r: seq<LegacyItem>)
    ensures |r| == |items|
  {
    seq(|items|, k requires 0 <= k < |items| => if k < |lines| then Annotated(items[k], lines[k]) else items[k])
  }

  /** The row values the insert loop reads back from an annotated item. */
  function InsertedLine(item: LegacyItem): PricedLine
    requires WellFormed(item.request) && item.unitPrice.Some? && item.lineTotal.Some?
  {
    PricedLine(item.request.productId.value, StoredMasa(item.request.masa), item.request.quantity.value,
               item.unitPrice.value, item.lineTotal.value)
  }

  /**
   * After a successful validation, every item object reads back exactly the
   * line the mounted routes would have stored for it.
   */
  lemma AnnotatedReadsBack(unitPrices: map<int, PriceInfo>, items: seq<LegacyItem>)
    requires PriceItems(unitPrices, Requests(items)).Success?
    ensures var lines := PriceItems(unitPrices, Requests(items)).value;
      && |lines| == |items|
      && forall k :: 0 <= k < |items| ==>
           && WellFormed(AnnotateAll(items, lines)[k].request)
           && InsertedLine(AnnotateAll(items, lines)[k]) == lines[k]
  {
    PriceItemsSuccess(unitPrices, Requests(items));
  }

  /**
   * The validation loop: checks and prices each item in request order and
   * writes the result into the item object, stopping at the first failure.
   * The objects before the offending one keep what was written into them.
   */
  method AnnotateItems(unitPrices: map<int, PriceInfo>, items: array<LegacyItem>)
    returns (r: Outcome<OrderError>, total: int, ghost lines: seq<PricedLine>)
    modifies items
    ensures Requests(items[..]) == Requests(old(items[..]))
    ensures r.Pass? <==> PriceItems(unitPrices, Requests(old(items[..]))).Success?
    ensures r.Pass? ==>
      && PriceItems(unitPrices, Requests(old(items[..]))) == Success(lines)
      && items[..] == AnnotateAll(old(items[..]), lines)
      && total == Sum(LineTotals(lines))
    ensures r.Fail? ==>
      && r.error == PriceItems(unitPrices, Requests(old(items[..]))).error
      && |lines| < items.Length
      && PriceItems(unitPrices, Requests(old(items[..]))[..|lines|]) == Success(lines)
      && PriceItem(unitPrices, old(items[|lines|]).request).Failure?
      && items[..] == AnnotateAll(old(items[..]), lines)
  {
    ghost var original := items[..];
    ghost var requests := Requests(original);
    lines := [];
    total := 0;
    var i := 0;
    while i < items.Length
      invariant 0 <= i <= items.Length
      invariant PriceItems(unitPrices, requests[..i]) == Success(lines)
      invariant |lines| == i
      invariant items[..] == AnnotateAll(original, lines)
      invariant total == Sum(LineTotals(lines))
    {
      var item := items[i];
      assert item == original[i] && item.request == requests[i];
      PricePrefixStep(unitPrices, requests, i, lines);
      if item.request.productId.None? || item.request.productId.value == 0
         || item.request.quantity.None? || item.request.quantity.value <= 0 {
        FailureSticks(unitPrices, requests, i + 1);
        AnnotateKeepsRequests(original, lines);
        return Fail(InvalidItem), total, lines;
      }
      var productId := item.request.productId.value;
      if productId !in unitPrices {
        FailureSticks(unitPrices, requests, i + 1);
        AnnotateKeepsRequests(original, lines);
        return Fail(ProductNotFound(productId)), total, lines;
      }
      var product := unitPrices[productId];
      var quantity: nat := item.request.quantity.value;
      var lineTotal := LegacyLineTotal(quantity, product.price, product.isSmall);
      LineTotalsAgree(quantity, product.price, product.isSmall);
      ghost var line := PricedLine(productId, StoredMasa(item.request.masa), quantity, product.price, lineTotal);
      AnnotateStep(original, lines, line);
      items[i] := item.(unitPrice := Some(product.price), lineTotal := Some(lineTotal));
      SumLineTotalsAppend(lines, line);
      lines := lines + [line];
      total := total + lineTotal;
      i := i + 1;
    }
    assert requests[..i] == requests;
    AnnotateKeepsRequests(original, lines);
    r := Pass;
  }

  /** One more request item checked: the first failure, or one more priced line. */
  lemma PricePrefixStep(unitPrices: map<int, PriceInfo>, requests: seq<RequestItem>, i: nat, lines: seq<PricedLine>)
    requires i < |requests|
    requires PriceItems(unitPrices, requests[..i]) == Success(lines)
    ensures PriceItems(unitPrices, requests[..i + 1])
            == match PriceItem(unitPrices, requests[i])
               case Failure(e) => Failure(e)
               case Success(line) => Success(lines + [line])
  {
    assert requests[..i + 1][..i] == requests[..i];
  }

  /** Writing prices into the item objects leaves what the client sent untouched. */
  lemma AnnotateKeepsRequests(original: seq<LegacyItem>, lines: seq<PricedLine>)
    ensures Requests(AnnotateAll(original, lines)) == Requests(original)
  {
  }

  /** Writing the next priced line into its item object. */
  lemma AnnotateStep(original: seq<LegacyItem>, lines: seq<PricedLine>, line: PricedLine)
    requires |lines| < |original|
    ensures AnnotateAll(original, lines + [line])
            == AnnotateAll(original, lines)[|lines| := Annotated(original[|lines|], line)]
  {
  }

  /** The insert loop: one `order_items` row per item object, read back from the object. */
  method InsertItems(store: OrderStore, orderId: int, items: array<LegacyItem>, ghost lines: seq<PricedLine>)
    requires |lines| == items.Length
    requires forall k :: 0 <= k < items.Length ==>
      WellFormed(items[k].request) && items[k].unitPrice.Some? && items[k].lineTotal.Some? && InsertedLine(items[k]) == lines[k]
    modifies store
    ensures store.items == old(store.items) + ItemRows(orderId, old(store.nextItemId), lines)
    ensures store.nextItemId == old(store.nextItemId) + |lines|
    ensures store.orders == old(store.orders) && store.nextOrderId == old(store.nextOrderId)
  {
    var j := 0;
    while j < items.Length
      invariant 0 <= j <= items.Length
      invariant store.items == old(store.items) + ItemRows(orderId, old(store.nextItemId), lines[..j])
      invariant store.nextItemId == old(store.nextItemId) + j
      invariant store.orders == old(store.orders) && store.nextOrderId == old(store.nextOrderId)
    {
      var item := items[j];
      var line := PricedLine(item.request.productId.value, StoredMasa(item.request.masa), item.request.quantity.value,
                             item.unitPrice.value, item.lineTotal.value);
      assert ItemRows(orderId, old(store.nextItemId), lines[..j + 1])
          == ItemRows(orderId, old(store.nextItemId), lines[..j]) + [ItemRow(store.nextItemId, orderId, line)];
      store.items := store.items + [ItemRow(store.nextItemId, orderId, line)];
      store.nextItemId := store.nextItemId + 1;
      j := j + 1;
    }
    assert lines[..j] == lines;
  }

  /**
   * POST in order.js. A null `items` stands for an absent or non-array field.
   * The tables end exactly as the mounted create route leaves them; on
   * success every item object carries its unit price and line total.
   */
  method LegacyCreate(store: OrderStore, unitPrices: map<int, PriceInfo>, businessDay: Option<string>,
                      isDelivery: Option<bool>, deliveryCost: Option<int>, items: array?<LegacyItem>)
    returns (r: Result<OrderRow, OrderError>)
    modifies store, items
    ensures Written(r, store.State())
            == CreateOrder(old(store.State()), unitPrices,
                           LegacyRequest(businessDay, isDelivery, deliveryCost, if items == null then None else Some(old(items[..]))))
    ensures items != null && r.Success? ==>
      items[..] == AnnotateAll(old(items[..]), PriceItems(unitPrices, Requests(old(items[..]))).value)
  {
    if businessDay.None? || businessDay.value == "" {
      return Failure(MissingBusinessDay);
    }
    if items == null || items.Length == 0 {
      return Failure(NoItems);
    }
    r := LegacyInsert(store, unitPrices, businessDay, isDelivery, deliveryCost, items);
  }

  /** The create handler from BEGIN to COMMIT or ROLLBACK. */
  method LegacyInsert(store: OrderStore, unitPrices: map<int, PriceInfo>, businessDay: Option<string>,
                      isDelivery: Option<bool>, deliveryCost: Option<int>, items: array<LegacyItem>)
    returns (r: Result<OrderRow, OrderError>)
    requires businessDay.Some? && businessDay.value != "" && items.Length > 0
    modifies store, items
    ensures Written(r, store.State())
            == CreateOrder(old(store.State()), unitPrices, LegacyRequest(businessDay, isDelivery, deliveryCost, Some(old(items[..]))))
    ensures r.Success? ==> items[..] == AnnotateAll(old(items[..]), PriceItems(unitPrices, Requests(old(items[..]))).value)
  {
    // BEGIN
    ghost var original := items[..];
    ghost var req := LegacyRequest(businessDay, isDelivery, deliveryCost, Some(original));
    assert CheckCreate(unitPrices, req) == PriceItems(unitPrices, Requests(original));
    var checked, total, lines := AnnotateItems(unitPrices, items);
    if checked.Fail? {
      // ROLLBACK: nothing was written to the tables.
      return Failure(checked.error);
    }
    AnnotatedReadsBack(unitPrices, original);
    var delivery := isDelivery == Some(true);
    var finalDeliveryCost := DeliveryCharge(delivery, deliveryCost);
    var row := OrderRow(store.nextOrderId, businessDay, delivery, finalDeliveryCost, total + finalDeliveryCost);
    RowPriced(row, req, lines);
    store.orders := store.orders + [row];
    store.nextOrderId := store.nextOrderId + 1;
    InsertItems(store, row.id, items, lines);
    // COMMIT
    r := Success(row);
  }

  /**
   * PUT in order.js. The tables end exactly as the mounted update route
   * leaves them: a missing order or an empty list changes nothing, a failing
   * item brings the deleted lines back, and success replaces them all.
   */
  method LegacyUpdate(store: OrderStore, unitPrices: map<int, PriceInfo>, id: int, businessDay: Option<string>,
                      isDelivery: Option<bool>, deliveryCost: Option<int>, items: array?<LegacyItem>)
    returns (r: Result<OrderRow, OrderError>)
    modifies store, items
    ensures Written(r, store.State())
            == UpdateOrder(old(store.State()), unitPrices, id,
                           LegacyRequest(businessDay, isDelivery, deliveryCost, if items == null then None else Some(old(items[..]))))
    ensures items != null && r.Success? ==>
      items[..] == AnnotateAll(old(items[..]), PriceItems(unitPrices, Requests(old(items[..]))).value)
  {
    if !Stored(store.orders, id) {
      return Failure(OrderNotFound);
    }
    if items == null || items.Length == 0 {
      return Failure(NoItems);
    }
    r := LegacyReplace(store, unitPrices, id, businessDay, isDelivery, deliveryCost, items);
  }

  /** The update handler from BEGIN to COMMIT or ROLLBACK. */
  method LegacyReplace(store: OrderStore, unitPrices: map<int, PriceInfo>, id: int, businessDay: Option<string>,
                       isDelivery: Option<bool>, deliveryCost: Option<int>, items: array<LegacyItem>)
    returns (r: Result<OrderRow, OrderError>)
    requires Stored(store.orders, id) && items.Length > 0
    modifies store, items
    ensures Written(r, store.State())
            == UpdateOrder(old(store.State()), unitPrices, id, LegacyRequest(businessDay, isDelivery, deliveryCost, Some(old(items[..]))))
    ensures r.Success? ==> items[..] == AnnotateAll(old(items[..]), PriceItems(unitPrices, Requests(old(items[..]))).value)
  {
    ghost var original := items[..];
    ghost var req := LegacyRequest(businessDay, isDelivery, deliveryCost, Some(original));
    assert CheckUpdate(unitPrices, store.orders, id, req) == PriceItems(unitPrices, Requests(original));
    // BEGIN; DELETE FROM order_items WHERE order_id = $1
    var savedItems := store.items;
    store.items := WithoutOrder(store.items, id);
    assert items[..] == original;
    var checked, total, lines := AnnotateItems(unitPrices, items);
    if checked.Fail? {
      // ROLLBACK
      store.items := savedItems;
      return Failure(checked.error);
    }
    AnnotatedReadsBack(unitPrices, original);
    var delivery := isDelivery == Some(true);
    var finalDeliveryCost := DeliveryCharge(delivery, deliveryCost);
    var row := OrderRow(id, businessDay, delivery, finalDeliveryCost, total + finalDeliveryCost);
    RowPriced(row, req, lines);
    store.orders := ReplaceOrder(store.orders, row);
    InsertItems(store, id, items, lines);
    // COMMIT
    r := Success(row);
  }
}
