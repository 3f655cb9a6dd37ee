/**
 * The order routes (backend/src/routes/orders.js, the router the server
 * mounts): creating, replacing and deleting an order together with its
 * lines, each all-or-nothing. The `orders` and `order_items` tables are
 * sequences of rows kept in id order, which is the order `ORDER BY id`
 * lists them in; the `products` table is seen through the price and
 * promotion flag the handlers look up for each product id.
 */
module Orders {
  import opened Common
  import opened Pricing

  // ---------------------------------------------------------------------
  // Requests, rows and errors
  // ---------------------------------------------------------------------

  /** One entry of the request's `items` array. A missing field is `None`. */
  datatype RequestItem = RequestItem(productId: Option<int>, quantity: Option<int>, masa: Option<string>)

  /**
   * The body of a create or update request. `items` is `None` when the field
   * is absent or is not an array.
   */
  datatype OrderRequest = OrderRequest(
    businessDay: Option<string>,
    isDelivery: Option<bool>,
    deliveryCost: Option<int>,
    items: Option<seq<RequestItem>>)

  datatype OrderError =
    | MissingBusinessDay
    | NoItems
    | InvalidItem
    | ProductNotFound(productId: int)
    | OrderNotFound

  /** The HTTP status each error is answered with. */
  function StatusCode(e: OrderError): int
  {
    match e
    case ProductNotFound(_) => 404
    case OrderNotFound => 404
    case _ => 400
  }

  /** A priced line: everything an `order_items` row holds besides its own id and its order. */
  datatype PricedLine = PricedLine(productId: int, masa: Option<string>, quantity: nat, unitPrice: int, lineTotal: int)

  datatype OrderRow = OrderRow(id: int, businessDay: Option<string>, isDelivery: bool, deliveryCost: int, total: int)

  datatype ItemRow = ItemRow(id: int, orderId: int, line: PricedLine)

  // ---------------------------------------------------------------------
  // Validation and pricing of the request lines
  // ---------------------------------------------------------------------

  /** The masa as stored: an empty masa becomes NULL. */
  function StoredMasa(masa: Option<string>): Option<string>
  {
    if masa == Some("") then None else masa
  }

  /** A line the validation loop accepts: a non-zero product id and a positive quantity. */
  predicate WellFormed(item: RequestItem)
  {
    item.productId.Some? && item.productId.value != 0 && item.quantity.Some? && item.quantity.value > 0
  }

  /** One turn of the validation loop: check the line, look its product up, price it. */
  function PriceItem(lookup: map<int, PriceInfo>, item: RequestItem): Result<PricedLine, OrderError>
  {
    if !WellFormed(item) then Failure(InvalidItem)
    else if item.productId.value !in lookup then Failure(ProductNotFound(item.productId.value))
    else
      var info := lookup[item.productId.value];
      var q: nat := item.quantity.value;
      Success(PricedLine(item.productId.value, StoredMasa(item.masa), q, info.price, LineTotal(q, info.price, info.isSmall)))
  }

  /** The whole validation loop: the lines priced in request order, or the first error met. */
  function PriceItems(lookup: map<int, PriceInfo>, items: seq<RequestItem>): Result<seq<PricedLine>, OrderError>
  {
    if items == [] then Success([])
    else
      match PriceItems(lookup, items[..|items| - 1])
      case Failure(e) => Failure(e)
      case Success(done) =>
        match PriceItem(lookup, items[|items| - 1])
        case Failure(e) => Failure(e)
        case Success(line) => Success(done + [line])
  }

  function LineTotals(lines: seq<PricedLine>): (r: seq<int>)
    ensures |r| == |lines|
  {
    seq(|lines|, k requires 0 <= k < |lines| => lines[k].lineTotal)
  }

  /** The checks of the create handler, in the order it makes them. */
  function CheckCreate(lookup: map<int, PriceInfo>, req: OrderRequest): Result<seq<PricedLine>, OrderError>
  {
    if req.businessDay.None? || req.businessDay.value == "" then Failure(MissingBusinessDay)
    else if req.items.None? || req.items.value == [] then Failure(NoItems)
    else PriceItems(lookup, req.items.value)
  }

  /** Some stored order has this id: the existence check of update and delete. */
  predicate Stored(orders: seq<OrderRow>, id: int)
  {
    exists k :: 0 <= k < |orders| && orders[k].id == id
  }

  /** The checks of the update handler, in the order it makes them; no business day check. */
  function CheckUpdate(lookup: map<int, PriceInfo>, orders: seq<OrderRow>, id: int, req: OrderRequest): Result<seq<PricedLine>, OrderError>
  {
    if !Stored(orders, id) then Failure(OrderNotFound)
    else if req.items.None? || req.items.value == [] then Failure(NoItems)
    else PriceItems(lookup, req.items.value)
  }

  /** The delivery flag as stored: false unless the request says true. */
  function DeliveryFlag(req: OrderRequest): bool
  {
    req.isDelivery == Some(true)
  }

  /** The order row written for `lines` under the given id. */
  function PricedOrder(id: int, req: OrderRequest, lines: seq<PricedLine>): OrderRow
  {
    OrderRow(id, req.businessDay, DeliveryFlag(req), DeliveryCharge(DeliveryFlag(req), req.deliveryCost),
             OrderTotal(LineTotals(lines), DeliveryFlag(req), req.deliveryCost))
  }

  /** A row built from a running total of the lines is the priced row. */
  lemma RowPriced(row: OrderRow, req: OrderRequest, lines: seq<PricedLine>)
    requires row.businessDay == req.businessDay && row.isDelivery == DeliveryFlag(req)
    requires row.deliveryCost == DeliveryCharge(row.isDelivery, req.deliveryCost)
    requires row.total == Sum(LineTotals(lines)) + row.deliveryCost
    ensures row == PricedOrder(row.id, req, lines)
  {
  }

  // ---------------------------------------------------------------------
  // The order_items table
  // ---------------------------------------------------------------------

  /** Rows inserted for `lines`, one per line, with consecutive ids from `firstId`. */
  function ItemRows(orderId: int, firstId: int, lines: seq<PricedLine>): (r: seq<ItemRow>)
    ensures |r| == |lines|
  {
    seq(|lines|, k requires 0 <= k < |lines| => ItemRow(firstId + k, orderId, lines[k]))
  }

  /** The lines of one order, in id order. */
  function LinesOf(items: seq<ItemRow>, orderId: int): seq<PricedLine>
  {
    if items == [] then []
    else
      var last := items[|items| - 1];
      LinesOf(items[..|items| - 1], orderId) + (if last.orderId == orderId then [last.line] else [])
  }

  /** The lines table without the lines of one order. */
  function WithoutOrder(items: seq<ItemRow>, orderId: int): (r: seq<ItemRow>)
    ensures forall x :: x in r <==> x in items && x.orderId != orderId
  {
    if items == [] then []
    else
      var last := items[|items| - 1];
      WithoutOrder(items[..|items| - 1], orderId) + (if last.orderId == orderId then [] else [last])
  }

  /** The orders table with the row of `row.id` overwritten. */
  function ReplaceOrder(orders: seq<OrderRow>, row: OrderRow): (r: seq<OrderRow>)
    ensures |r| == |orders|
    ensures forall k :: 0 <= k < |orders| && orders[k].id == row.id ==> r[k] == row
    ensures forall k :: 0 <= k < |orders| && orders[k].id != row.id ==> r[k] == orders[k]
  {
    seq(|orders|, k requires 0 <= k < |orders| => if orders[k].id == row.id then row else orders[k])
  }

  /** The orders table without the row of this id. */
  function RemoveOrder(orders: seq<OrderRow>, id: int): (r: seq<OrderRow>)
    ensures forall x :: x in r <==> x in orders && x.id != id
  {
    if orders == [] then []
    else
      var last := orders[|orders| - 1];
      RemoveOrder(orders[..|orders| - 1], id) + (if last.id == id then [] else [last])
  }

  ghost predicate OrderIdsAscending(orders: seq<OrderRow>)
  {
    forall i, j :: 0 <= i < j < |orders| ==> orders[i].id < orders[j].id
  }

  ghost predicate ItemIdsAscending(items: seq<ItemRow>)
  {
    forall i, j :: 0 <= i < j < |items| ==> items[i].id < items[j].id
  }

  /**
   * Every stored order's total is the sum of its stored line totals plus its
   * delivery cost, and a pickup order's delivery cost is 0.
   */
  ghost predicate TotalsConsistent(orders: seq<OrderRow>, items: seq<ItemRow>)
  {
    forall k :: 0 <= k < |orders| ==>
      && orders[k].total == Sum(LineTotals(LinesOf(items, orders[k].id))) + orders[k].deliveryCost
      && (!orders[k].isDelivery ==> orders[k].deliveryCost == 0)
  }

  // ---------------------------------------------------------------------
  // Lemmas about the validation loop
  // ---------------------------------------------------------------------

  /** The validation succeeds exactly when every line passes on its own. */
  lemma {:induction false} PriceItemsAllPass(lookup: map<int, PriceInfo>, items: seq<RequestItem>)
    ensures PriceItems(lookup, items).Success? <==> forall k :: 0 <= k < |items| ==> PriceItem(lookup, items[k]).Success?
  {
    if items != [] {
      var init := items[..|items| - 1];
      PriceItemsAllPass(lookup, init);
      assert forall k :: 0 <= k < |init| ==> init[k] == items[k];
    }
  }

  /** A failed validation answers with the error of the first line that fails. */
  lemma FirstOffender(lookup: map<int, PriceInfo>, items: seq<RequestItem>, k: nat)
    requires k < |items|
    requires forall j :: 0 <= j < k ==> PriceItem(lookup, items[j]).Success?
    requires PriceItem(lookup, items[k]).Failure?
    ensures PriceItems(lookup, items) == Failure(PriceItem(lookup, items[k]).error)
  {
    PriceItemsAllPass(lookup, items[..k]);
    assert items[..k + 1][..k] == items[..k];
    FailureSticks(lookup, items, k + 1);
  }

  /**
   * On success every line is priced from its own request entry: the product's
   * price at write time becomes the unit price and the line total follows the
   * pricing rule; the lines keep the request order.
   */
  lemma {:induction false} PriceItemsSuccess(lookup: map<int, PriceInfo>, items: seq<RequestItem>)
    requires PriceItems(lookup, items).Success?
    ensures |PriceItems(lookup, items).value| == |items|
    ensures forall k :: 0 <= k < |items| ==>
      && WellFormed(items[k]) && items[k].productId.value in lookup
      && var info := lookup[items[k].productId.value];
         PriceItems(lookup, items).value[k] ==
           PricedLine(items[k].productId.value, StoredMasa(items[k].masa), items[k].quantity.value,
                      info.price, LineTotal(items[k].quantity.value, info.price, info.isSmall))
  {
    if items != [] {
      var init := items[..|items| - 1];
      PriceItemsSuccess(lookup, init);
      forall k | 0 <= k < |items| - 1 ensures items[k] == init[k] { }
    }
  }

  /** Once a prefix of the request fails, the whole request fails with the same error. */
  lemma {:induction false} FailureSticks(lookup: map<int, PriceInfo>, items: seq<RequestItem>, n: nat)
    requires n <= |items|
    requires PriceItems(lookup, items[..n]).Failure?
    ensures PriceItems(lookup, items) == PriceItems(lookup, items[..n])
    decreases |items| - n
  {
    if n < |items| {
      assert items[..n + 1][..n] == items[..n];
      FailureSticks(lookup, items, n + 1);
    } else {
      assert items[..n] == items;
    }
  }

  lemma SumLineTotalsAppend(lines: seq<PricedLine>, line: PricedLine)
    ensures Sum(LineTotals(lines + [line])) == Sum(LineTotals(lines)) + line.lineTotal
  {
    assert LineTotals(lines + [line])[..|lines|] == LineTotals(lines);
  }

  // ---------------------------------------------------------------------
  // Lemmas about the order_items table
  // ---------------------------------------------------------------------

  lemma {:induction false} LinesOfAppend(a: seq<ItemRow>, b: seq<ItemRow>, orderId: int)
    ensures LinesOf(a + b, orderId) == LinesOf(a, orderId) + LinesOf(b, orderId)
    decreases |b|
  {
    if b == [] {
      assert a + b == a;
    } else {
      assert (a + b)[..|a + b| - 1] == a + b[..|b| - 1];
      LinesOfAppend(a, b[..|b| - 1], orderId);
    }
  }

  lemma {:induction false} LinesOfItemRows(orderId: int, firstId: int, lines: seq<PricedLine>, other: int)
    ensures LinesOf(ItemRows(orderId, firstId, lines), other) == if other == orderId then lines else []
    decreases |lines|
  {
    if lines != [] {
      var init := lines[..|lines| - 1];
      var rows := ItemRows(orderId, firstId, lines);
      assert rows[..|rows| - 1] == ItemRows(orderId, firstId, init);
      assert rows[|rows| - 1].orderId == orderId && rows[|rows| - 1].line == lines[|lines| - 1];
      LinesOfItemRows(orderId, firstId, init, other);
      if other == orderId {
        assert init + [lines[|lines| - 1]] == lines;
      }
    }
  }

  lemma {:induction false} LinesOfAbsent(items: seq<ItemRow>, orderId: int)
    requires forall k :: 0 <= k < |items| ==> items[k].orderId != orderId
    ensures LinesOf(items, orderId) == []
  {
    if items != [] {
      LinesOfAbsent(items[..|items| - 1], orderId);
    }
  }

  lemma {:induction false} LinesOfWithout(items: seq<ItemRow>, removed: int, other: int)
    ensures LinesOf(WithoutOrder(items, removed), other) == if other == removed then [] else LinesOf(items, other)
  {
    if items != [] {
      var init := items[..|items| - 1];
      var last := items[|items| - 1];
      LinesOfWithout(init, removed, other);
      if last.orderId != removed {
        LinesOfAppend(WithoutOrder(init, removed), [last], other);
      } else {
        assert WithoutOrder(init, removed) + [] == WithoutOrder(init, removed);
      }
    }
  }

  lemma {:induction false} WithoutOrderAscending(items: seq<ItemRow>, orderId: int)
    requires ItemIdsAscending(items)
    ensures ItemIdsAscending(WithoutOrder(items, orderId))
  {
    if items != [] {
      var init := items[..|items| - 1];
      WithoutOrderAscending(init, orderId);
      var w := WithoutOrder(init, orderId);
      forall x | x in w ensures x.id < items[|items| - 1].id {
        var k :| 0 <= k < |init| && init[k] == x;
      }
    }
  }

  lemma {:induction false} RemoveOrderAscending(orders: seq<OrderRow>, id: int)
    requires OrderIdsAscending(orders)
    ensures OrderIdsAscending(RemoveOrder(orders, id))
  {
    if orders != [] {
      var init := orders[..|orders| - 1];
      RemoveOrderAscending(init, id);
      var w := RemoveOrder(init, id);
      forall x | x in w ensures x.id < orders[|orders| - 1].id {
        var k :| 0 <= k < |init| && init[k] == x;
      }
    }
  }

  /** The lines of every order after a new order's lines are appended. */
  lemma LinesAfterInsert(items: seq<ItemRow>, orderId: int, firstId: int, lines: seq<PricedLine>)
    requires forall k :: 0 <= k < |items| ==> items[k].orderId != orderId
    ensures forall o :: LinesOf(items + ItemRows(orderId, firstId, lines), o) == if o == orderId then lines else LinesOf(items, o)
  {
    var added := ItemRows(orderId, firstId, lines);
    forall o ensures LinesOf(items + added, o) == if o == orderId then lines else LinesOf(items, o) {
      LinesOfAppend(items, added, o);
      LinesOfItemRows(orderId, firstId, lines, o);
      if o == orderId {
        LinesOfAbsent(items, orderId);
        assert [] + lines == lines;
      } else {
        assert LinesOf(items, o) + [] == LinesOf(items, o);
      }
    }
  }

  /** The lines of every order after one order's lines are deleted and new ones appended. */
  lemma LinesAfterReplace(items: seq<ItemRow>, orderId: int, firstId: int, lines: seq<PricedLine>)
    ensures forall o :: LinesOf(WithoutOrder(items, orderId) + ItemRows(orderId, firstId, lines), o)
                        == if o == orderId then lines else LinesOf(items, o)
  {
    var kept := WithoutOrder(items, orderId);
    forall k | 0 <= k < |kept| ensures kept[k].orderId != orderId {
      assert kept[k] in kept;
    }
    LinesAfterInsert(kept, orderId, firstId, lines);
    forall o | o != orderId ensures LinesOf(kept, o) == LinesOf(items, o) {
      LinesOfWithout(items, orderId, o);
    }
  }

  /** Adding a new order with its own fresh lines keeps every total consistent. */
  lemma InsertKeepsTotals(orders: seq<OrderRow>, items: seq<ItemRow>, row: OrderRow, firstId: int, lines: seq<PricedLine>)
    requires TotalsConsistent(orders, items)
    requires !Stored(orders, row.id)
    requires forall k :: 0 <= k < |items| ==> items[k].orderId != row.id
    requires row.total == Sum(LineTotals(lines)) + row.deliveryCost
    requires !row.isDelivery ==> row.deliveryCost == 0
    ensures TotalsConsistent(orders + [row], items + ItemRows(row.id, firstId, lines))
  {
    LinesAfterInsert(items, row.id, firstId, lines);
  }

  /** Replacing one order's lines and its row keeps every total consistent. */
  lemma ReplaceKeepsTotals(orders: seq<OrderRow>, items: seq<ItemRow>, row: OrderRow, firstId: int, lines: seq<PricedLine>)
    requires TotalsConsistent(orders, items)
    requires row.total == Sum(LineTotals(lines)) + row.deliveryCost
    requires !row.isDelivery ==> row.deliveryCost == 0
    ensures TotalsConsistent(ReplaceOrder(orders, row), WithoutOrder(items, row.id) + ItemRows(row.id, firstId, lines))
  {
    LinesAfterReplace(items, row.id, firstId, lines);
  }

  /** Removing an order and its lines keeps every remaining total consistent. */
  lemma RemoveKeepsTotals(orders: seq<OrderRow>, items: seq<ItemRow>, id: int)
    requires TotalsConsistent(orders, items)
    ensures TotalsConsistent(RemoveOrder(orders, id), WithoutOrder(items, id))
  {
    var orders' := RemoveOrder(orders, id);
    forall k | 0 <= k < |orders'|
      ensures orders'[k].total == Sum(LineTotals(LinesOf(WithoutOrder(items, id), orders'[k].id))) + orders'[k].deliveryCost
      ensures !orders'[k].isDelivery ==> orders'[k].deliveryCost == 0
    {
      assert orders'[k] in orders';
      var j :| 0 <= j < |orders| && orders[j] == orders'[k];
      LinesOfWithout(items, id, orders'[k].id);
    }
  }

  // ---------------------------------------------------------------------
  // The two tables and what each route does to them
  // ---------------------------------------------------------------------

  /** The `orders` and `order_items` tables with the next values of their id sequences. */
  datatype Db = Db(orders: seq<OrderRow>, items: seq<ItemRow>, nextOrderId: int, nextItemId: int)

  /**
   * Ids ascend in each table and stay below their sequences' next values,
   * every line belongs to a stored order, and every total is consistent.
   */
  ghost predicate Consistent(db: Db)
  {
    && OrderIdsAscending(db.orders)
    && (forall k :: 0 <= k < |db.orders| ==> db.orders[k].id < db.nextOrderId)
    && ItemIdsAscending(db.items)
    && (forall k :: 0 <= k < |db.items| ==> db.items[k].id < db.nextItemId)
    && (forall k :: 0 <= k < |db.items| ==> Stored(db.orders, db.items[k].orderId))
    && TotalsConsistent(db.orders, db.items)
  }

  /** The response of a route and the tables it leaves behind. */
  datatype Written = Written(response: Result<OrderRow, OrderError>, db: Db)

  /** POST /api/orders: the order and its lines under the next ids, or nothing at all. */
  function CreateOrder(db: Db, lookup: map<int, PriceInfo>, req: OrderRequest): Written
  {
    match CheckCreate(lookup, req)
    case Failure(e) => Written(Failure(e), db)
    case Success(lines) =>
      var row := PricedOrder(db.nextOrderId, req, lines);
      Written(Success(row), Db(db.orders + [row], db.items + ItemRows(row.id, db.nextItemId, lines),
                               db.nextOrderId + 1, db.nextItemId + |lines|))
  }

  /** PUT /api/orders/:id: the row and the whole set of lines replaced, or nothing at all. */
  function UpdateOrder(db: Db, lookup: map<int, PriceInfo>, id: int, req: OrderRequest): Written
  {
    match CheckUpdate(lookup, db.orders, id, req)
    case Failure(e) => Written(Failure(e), db)
    case Success(lines) =>
      var row := PricedOrder(id, req, lines);
      Written(Success(row), Db(ReplaceOrder(db.orders, row), WithoutOrder(db.items, id) + ItemRows(id, db.nextItemId, lines),
                               db.nextOrderId, db.nextItemId + |lines|))
  }

  /** DELETE /api/orders/:id: the order and its lines gone. */
  function DeleteOrder(db: Db, id: int): (Outcome<OrderError>, Db)
  {
    if !Stored(db.orders, id) then (Fail(OrderNotFound), db)
    else (Pass, Db(RemoveOrder(db.orders, id), WithoutOrder(db.items, id), db.nextOrderId, db.nextItemId))
  }

  lemma ItemRowsAppendAscending(items: seq<ItemRow>, nextItemId: int, orderId: int, lines: seq<PricedLine>)
    requires ItemIdsAscending(items)
    requires forall k :: 0 <= k < |items| ==> items[k].id < nextItemId
    ensures ItemIdsAscending(items + ItemRows(orderId, nextItemId, lines))
    ensures forall k :: 0 <= k < |items + ItemRows(orderId, nextItemId, lines)| ==>
      (items + ItemRows(orderId, nextItemId, lines))[k].id < nextItemId + |lines|
  {
  }

  /** Storing a new order keeps the tables consistent. */
  lemma CreateKeepsConsistent(db: Db, lookup: map<int, PriceInfo>, req: OrderRequest)
    requires Consistent(db)
    ensures Consistent(CreateOrder(db, lookup, req).db)
  {
    if CheckCreate(lookup, req).Success? {
      var lines := CheckCreate(lookup, req).value;
      var row := PricedOrder(db.nextOrderId, req, lines);
      NoLinesForNext(db.orders, db.items, db.nextOrderId);
      InsertKeepsTotals(db.orders, db.items, row, db.nextItemId, lines);
      ItemRowsAppendAscending(db.items, db.nextItemId, row.id, lines);
      InsertKeepsLinks(db.orders, db.items, row, db.nextItemId, lines);
    }
  }

  /** No stored order, and so no line, carries the next order id. */
  lemma NoLinesForNext(orders: seq<OrderRow>, items: seq<ItemRow>, next: int)
    requires forall k :: 0 <= k < |orders| ==> orders[k].id < next
    requires forall k :: 0 <= k < |items| ==> Stored(orders, items[k].orderId)
    ensures !Stored(orders, next)
    ensures forall k :: 0 <= k < |items| ==> items[k].orderId != next
  {
    forall k | 0 <= k < |items| ensures items[k].orderId != next {
      assert Stored(orders, items[k].orderId);
      var m :| 0 <= m < |orders| && orders[m].id == items[k].orderId;
    }
  }

  /** After an insert, every line, old or new, belongs to a stored order. */
  lemma InsertKeepsLinks(orders: seq<OrderRow>, items: seq<ItemRow>, row: OrderRow, nextItemId: int, lines: seq<PricedLine>)
    requires forall k :: 0 <= k < |items| ==> Stored(orders, items[k].orderId)
    ensures var items' := items + ItemRows(row.id, nextItemId, lines);
      forall k :: 0 <= k < |items'| ==> Stored(orders + [row], items'[k].orderId)
  {
    var items' := items + ItemRows(row.id, nextItemId, lines);
    var orders' := orders + [row];
    forall k | 0 <= k < |items'| ensures Stored(orders', items'[k].orderId) {
      if k < |items| {
        assert Stored(orders, items[k].orderId);
        var m :| 0 <= m < |orders| && orders[m].id == items[k].orderId;
        assert orders'[m] == orders[m];
      } else {
        assert orders'[|orders|] == row;
      }
    }
  }

  /**
   * A create request either fails with the first error the handler meets and
   * leaves both tables alone, or stores one new order, under an id no order
   * had, whose lines are the priced request lines and whose total is their
   * sum plus the delivery charge; no other order's lines change.
   */
  lemma CreateOrderOutcome(db: Db, lookup: map<int, PriceInfo>, req: OrderRequest)
    requires Consistent(db)
    ensures var w := CreateOrder(db, lookup, req);
      && (w.response.Failure? <==> CheckCreate(lookup, req).Failure?)
      && (w.response.Failure? ==> w.response.error == CheckCreate(lookup, req).error && w.db == db)
      && (w.response.Success? ==>
            && !Stored(db.orders, w.response.value.id)
            && w.db.orders == db.orders + [w.response.value]
            && w.response.value.businessDay == req.businessDay
            && w.response.value.isDelivery == DeliveryFlag(req)
            && w.response.value.deliveryCost == DeliveryCharge(DeliveryFlag(req), req.deliveryCost)
            && LinesOf(w.db.items, w.response.value.id) == CheckCreate(lookup, req).value
            && w.response.value.total
               == OrderTotal(LineTotals(CheckCreate(lookup, req).value), DeliveryFlag(req), req.deliveryCost)
            && (forall o :: o != w.response.value.id ==> LinesOf(w.db.items, o) == LinesOf(db.items, o)))
  {
    if CheckCreate(lookup, req).Success? {
      var lines := CheckCreate(lookup, req).value;
      var id := db.nextOrderId;
      NoLinesForNext(db.orders, db.items, id);
      LinesAfterInsert(db.items, id, db.nextItemId, lines);
    }
  }

  /** Replacing an order keeps the tables consistent. */
  lemma UpdateKeepsConsistent(db: Db, lookup: map<int, PriceInfo>, id: int, req: OrderRequest)
    requires Consistent(db)
    ensures Consistent(UpdateOrder(db, lookup, id, req).db)
  {
    if CheckUpdate(lookup, db.orders, id, req).Success? {
      var lines := CheckUpdate(lookup, db.orders, id, req).value;
      var row := PricedOrder(id, req, lines);
      ReplaceKeepsTotals(db.orders, db.items, row, db.nextItemId, lines);
      ReplaceKeepsIds(db.orders, row);
      ReplaceKeepsLinks(db.orders, db.items, row, db.nextItemId, lines);
    }
  }

  /** Replacing a row keeps every order id where it was. */
  lemma ReplaceKeepsIds(orders: seq<OrderRow>, row: OrderRow)
    ensures forall k :: 0 <= k < |orders| ==> ReplaceOrder(orders, row)[k].id == orders[k].id
    ensures forall o :: Stored(ReplaceOrder(orders, row), o) <==> Stored(orders, o)
  {
  }

  /**
   * Replacing the lines of a stored order keeps line ids ascending and below
   * the next value, and every line attached to a stored order.
   */
  lemma ReplaceKeepsLinks(orders: seq<OrderRow>, items: seq<ItemRow>, row: OrderRow, nextItemId: int, lines: seq<PricedLine>)
    requires Stored(orders, row.id)
    requires ItemIdsAscending(items)
    requires forall k :: 0 <= k < |items| ==> items[k].id < nextItemId
    requires forall k :: 0 <= k < |items| ==> Stored(orders, items[k].orderId)
    ensures var items' := WithoutOrder(items, row.id) + ItemRows(row.id, nextItemId, lines);
      && ItemIdsAscending(items')
      && (forall k :: 0 <= k < |items'| ==> items'[k].id < nextItemId + |lines|)
      && (forall k :: 0 <= k < |items'| ==> Stored(orders, items'[k].orderId))
  {
    var kept := WithoutOrder(items, row.id);
    var items' := kept + ItemRows(row.id, nextItemId, lines);
    WithoutOrderAscending(items, row.id);
    forall x | x in kept ensures x.id < nextItemId && Stored(orders, x.orderId) {
      var k :| 0 <= k < |items| && items[k] == x;
    }
    ItemRowsAppendAscending(kept, nextItemId, row.id, lines);
    forall k | 0 <= k < |items'| ensures Stored(orders, items'[k].orderId) {
      if k < |kept| { assert items'[k] in kept; }
    }
  }

  /**
   * An update request either fails and leaves both tables alone, or writes
   * the new row (the request's day, flag and charge, and the recomputed total)
   * in place of the order's row, keeps every other row, gives the order
   * exactly the priced request lines, and leaves every other order's lines alone.
   */
  lemma UpdateOrderOutcome(db: Db, lookup: map<int, PriceInfo>, id: int, req: OrderRequest)
    ensures var w := UpdateOrder(db, lookup, id, req);
      && (w.response.Failure? <==> CheckUpdate(lookup, db.orders, id, req).Failure?)
      && (w.response.Failure? ==> w.response.error == CheckUpdate(lookup, db.orders, id, req).error && w.db == db)
      && (w.response.Success? ==>
            && w.response.value.id == id
            && Stored(w.db.orders, id)
            && |w.db.orders| == |db.orders|
            && (forall k :: 0 <= k < |db.orders| && db.orders[k].id == id ==> w.db.orders[k] == w.response.value)
            && (forall k :: 0 <= k < |db.orders| && db.orders[k].id != id ==> w.db.orders[k] == db.orders[k])
            && w.response.value.businessDay == req.businessDay
            && w.response.value.isDelivery == DeliveryFlag(req)
            && w.response.value.deliveryCost == DeliveryCharge(DeliveryFlag(req), req.deliveryCost)
            && LinesOf(w.db.items, id) == CheckUpdate(lookup, db.orders, id, req).value
            && w.response.value.total
               == OrderTotal(LineTotals(CheckUpdate(lookup, db.orders, id, req).value), DeliveryFlag(req), req.deliveryCost)
            && (forall o :: o != id ==> LinesOf(w.db.items, o) == LinesOf(db.items, o)))
  {
    if CheckUpdate(lookup, db.orders, id, req).Success? {
      var lines := CheckUpdate(lookup, db.orders, id, req).value;
      var orders' := ReplaceOrder(db.orders, PricedOrder(id, req, lines));
      assert Stored(db.orders, id);
      var m :| 0 <= m < |db.orders| && db.orders[m].id == id;
      assert orders'[m].id == id;
      LinesAfterReplace(db.items, id, db.nextItemId, lines);
    }
  }

  /** Removing an order with its lines keeps the tables consistent. */
  lemma DeleteKeepsConsistent(db: Db, id: int)
    requires Consistent(db)
    ensures Consistent(DeleteOrder(db, id).1)
  {
    var (orders, items) := (db.orders, db.items);
    if Stored(orders, id) {
      var orders' := RemoveOrder(orders, id);
      var items' := WithoutOrder(items, id);
      RemoveOrderAscending(orders, id);
      WithoutOrderAscending(items, id);
      RemoveKeepsTotals(orders, items, id);
      forall k | 0 <= k < |orders'| ensures orders'[k].id < db.nextOrderId {
        assert orders'[k] in orders';
      }
      forall k | 0 <= k < |items'| ensures items'[k].id < db.nextItemId && Stored(orders', items'[k].orderId) {
        assert items'[k] in items';
        assert Stored(orders, items'[k].orderId);
        var m :| 0 <= m < |orders| && orders[m].id == items'[k].orderId;
        assert orders[m] in orders';
      }
    }
  }

  /**
   * A delete request fails exactly when no order has the id, and then changes
   * nothing; otherwise the order is gone, its lines with it, and every other
   * order keeps its lines.
   */
  lemma DeleteOrderOutcome(db: Db, id: int)
    requires Consistent(db)
    ensures var (outcome, db') := DeleteOrder(db, id);
      && (outcome.Fail? <==> !Stored(db.orders, id))
      && (outcome.Fail? ==> db' == db)
      && !Stored(db'.orders, id)
      && LinesOf(db'.items, id) == []
      && (forall o :: o != id ==> LinesOf(db'.items, o) == LinesOf(db.items, o))
  {
    var (orders, items) := (db.orders, db.items);
    if Stored(orders, id) {
      forall o ensures LinesOf(WithoutOrder(items, id), o) == if o == id then [] else LinesOf(items, o) {
        LinesOfWithout(items, id, o);
      }
    } else {
      forall k | 0 <= k < |items| ensures items[k].orderId != id {
        assert Stored(orders, items[k].orderId);
        var m :| 0 <= m < |orders| && orders[m].id == items[k].orderId;
      }
      LinesOfAbsent(items, id);
    }
  }

  /**
   * Sending the same update twice: the second succeeds whenever the first
   * did, answers with the same row, and leaves the order with the same lines.
   */
  lemma UpdateIdempotent(db: Db, lookup: map<int, PriceInfo>, id: int, req: OrderRequest)
    requires Consistent(db)
    ensures var first := UpdateOrder(db, lookup, id, req);
            var second := UpdateOrder(first.db, lookup, id, req);
      first.response.Success? ==>
        && second.response == first.response
        && LinesOf(second.db.items, id) == LinesOf(first.db.items, id)
  {
    var first := UpdateOrder(db, lookup, id, req);
    UpdateOrderOutcome(db, lookup, id, req);
    if first.response.Success? {
      UpdateOrderOutcome(first.db, lookup, id, req);
    }
  }

  // ---------------------------------------------------------------------
  // The validation loop
  // ---------------------------------------------------------------------

  /**
   * The loop both handlers run over the request lines: check each one, look
   * its product up, price it and add its line total, stopping at the first
   * line that fails.
   */
  method PriceRequest(lookup: map<int, PriceInfo>, requested: seq<RequestItem>)
    returns (r: Result<seq<PricedLine>, OrderError>, total: int)
    ensures r == PriceItems(lookup, requested)
    ensures r.Success? ==> |r.value| == |requested| && total == Sum(LineTotals(r.value))
  {
    total := 0;
    var processed: seq<PricedLine> := [];
    var i := 0;
    while i < |requested|
      invariant 0 <= i <= |requested|
      invariant PriceItems(lookup, requested[..i]) == Success(processed)
      invariant |processed| == i
      invariant total == Sum(LineTotals(processed))
    {
      var item := requested[i];
      assert requested[..i + 1][..i] == requested[..i];
      if item.productId.None? || item.productId.value == 0 || item.quantity.None? || item.quantity.value <= 0 {
        FailureSticks(lookup, requested, i + 1);
        return Failure(InvalidItem), total;
      }
      var productId := item.productId.value;
      if productId !in lookup {
        FailureSticks(lookup, requested, i + 1);
        return Failure(ProductNotFound(productId)), total;
      }
      var info := lookup[productId];
      var quantity: nat := item.quantity.value;
      var line := PricedLine(productId, StoredMasa(item.masa), quantity, info.price, LineTotal(quantity, info.price, info.isSmall));
      SumLineTotalsAppend(processed, line);
      processed := processed + [line];
      total := total + line.lineTotal;
      i := i + 1;
    }
    assert requested[..i] == requested;
    r := Success(processed);
  }

  // ---------------------------------------------------------------------
  // The store
  // ---------------------------------------------------------------------

  /** The database the order routes write to. */
  class OrderStore {
    var orders: seq<OrderRow>
    var items: seq<ItemRow>
    var nextOrderId: int
    var nextItemId: int

    function State(): Db
      reads this
    {
      Db(orders, items, nextOrderId, nextItemId)
    }

    ghost predicate Valid()
      reads this
    {
      Consistent(State())
    }

    constructor ()
      ensures Valid()
      ensures orders == [] && items == []
    {
      orders, items := [], [];
      nextOrderId, nextItemId := 1, 1;
    }

    /** The insert loop: one `order_items` row per priced line, in order. */
    method InsertLines(orderId: int, lines: seq<PricedLine>)
      modifies this
      ensures items == old(items) + ItemRows(orderId, old(nextItemId), lines)
      ensures nextItemId == old(nextItemId) + |lines|
      ensures orders == old(orders) && nextOrderId == old(nextOrderId)
    {
      var j := 0;
      while j < |lines|
        invariant 0 <= j <= |lines|
        invariant items == old(items) + ItemRows(orderId, old(nextItemId), lines[..j])
        invariant nextItemId == old(nextItemId) + j
        invariant orders == old(orders) && nextOrderId == old(nextOrderId)
      {
        assert ItemRows(orderId, old(nextItemId), lines[..j + 1])
            == ItemRows(orderId, old(nextItemId), lines[..j]) + [ItemRow(nextItemId, orderId, lines[j])];
        items := items + [ItemRow(nextItemId, orderId, lines[j])];
        nextItemId := nextItemId + 1;
        j := j + 1;
      }
      assert lines[..j] == lines;
    }

    /** POST /api/orders. */
    method Create(lookup: map<int, PriceInfo>, req: OrderRequest) returns (r: Result<OrderRow, OrderError>)
      requires Valid()
      modifies this
      ensures Valid()
      ensures Written(r, State()) == CreateOrder(old(State()), lookup, req)
    {
      CreateKeepsConsistent(State(), lookup, req);
      r := CreateTransaction(lookup, req);
    }

    /** The body of the create handler, from the request checks to COMMIT. */
    method CreateTransaction(lookup: map<int, PriceInfo>, req: OrderRequest) returns (r: Result<OrderRow, OrderError>)
      modifies this
      ensures Written(r, State()) == CreateOrder(old(State()), lookup, req)
    {
      if req.businessDay.None? || req.businessDay.value == "" {
        return Failure(MissingBusinessDay);
      }
      if req.items.None? || |req.items.value| == 0 {
        return Failure(NoItems);
      }
      // BEGIN: nothing is written until every line is priced, so the
      // ROLLBACK of a failed request leaves both tables as they were.
      var priced, total := PriceRequest(lookup, req.items.value);
      if priced.Failure? {
        return Failure(priced.error);
      }
      var lines := priced.value;
      var isDelivery := req.isDelivery == Some(true);
      var deliveryCost := DeliveryCharge(isDelivery, req.deliveryCost);
      var row := OrderRow(nextOrderId, req.businessDay, isDelivery, deliveryCost, total + deliveryCost);
      RowPriced(row, req, lines);
      orders := orders + [row];
      nextOrderId := nextOrderId + 1;
      InsertLines(row.id, lines);
      // COMMIT
      r := Success(row);
    }

    /** PUT /api/orders/:id. */
    method Update(lookup: map<int, PriceInfo>, id: int, req: OrderRequest) returns (r: Result<OrderRow, OrderError>)
      requires Valid()
      modifies this
      ensures Valid()
      ensures Written(r, State()) == UpdateOrder(old(State()), lookup, id, req)
    {
      UpdateKeepsConsistent(State(), lookup, id, req);
      r := UpdateTransaction(lookup, id, req);
    }

    /** The body of the update handler, from the existence check to COMMIT or ROLLBACK. */
    method UpdateTransaction(lookup: map<int, PriceInfo>, id: int, req: OrderRequest) returns (r: Result<OrderRow, OrderError>)
      modifies this
      ensures Written(r, State()) == UpdateOrder(old(State()), lookup, id, req)
    {
      if !Stored(orders, id) {
        return Failure(OrderNotFound);
      }
      if req.items.None? || |req.items.value| == 0 {
        return Failure(NoItems);
      }
      // BEGIN; the old lines go first, and ROLLBACK brings them back.
      var savedItems := items;
      items := WithoutOrder(items, id);
      var priced, total := PriceRequest(lookup, req.items.value);
      if priced.Failure? {
        items := savedItems;
        return Failure(priced.error);
      }
      var lines := priced.value;
      var isDelivery := req.isDelivery == Some(true);
      var deliveryCost := DeliveryCharge(isDelivery, req.deliveryCost);
      var row := OrderRow(id, req.businessDay, isDelivery, deliveryCost, total + deliveryCost);
      RowPriced(row, req, lines);
      orders := ReplaceOrder(orders, row);
      InsertLines(id, lines);
      // COMMIT
      r := Success(row);
    }

    /** DELETE /api/orders/:id. */
    method Delete(id: int) returns (r: Outcome<OrderError>)
      requires Valid()
      modifies this
      ensures Valid()
      ensures (r, State()) == DeleteOrder(old(State()), id)
    {
      DeleteKeepsConsistent(State(), id);
      if !Stored(orders, id) {
        return Fail(OrderNotFound);
      }
      orders := RemoveOrder(orders, id);
      items := WithoutOrder(items, id);
      r := Pass;
    }
  }
}
