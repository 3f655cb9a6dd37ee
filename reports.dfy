/**
 * The daily report (backend/src/routes/reports.js): totals over one business
 * day's orders, the sales rows that join each order line to its order and
 * its product, and the per-product summaries grouped from those rows.
 */
module Reports {
  import opened Common
  import opened Dates
  import opened Pricing
  import opened Orders
  import opened Catalogue

  datatype ReportError = BadDate | NoSales

  function StatusCode(e: ReportError): int
  {
    match e
    case BadDate => 400
    case NoSales => 404
  }

  // ---------------------------------------------------------------------
  // Totals of the day
  // ---------------------------------------------------------------------

  /** The orders of one business day, in table order. */
  function DayOrders(orders: seq<OrderRow>, date: string): (r: seq<OrderRow>)
    ensures forall o :: o in r <==> o in orders && o.businessDay == Some(date)
  {
    if orders == [] then []
    else
      var last := orders[|orders| - 1];
      DayOrders(orders[..|orders| - 1], date) + (if last.businessDay == Some(date) then [last] else [])
  }

  /** `SUM(total)`, 0 for no rows. */
  function SalesOf(day: seq<OrderRow>): int
  {
    if day == [] then 0 else SalesOf(day[..|day| - 1]) + day[|day| - 1].total
  }

  /** `SUM(delivery_cost)`, 0 for no rows. */
  function DeliveryOf(day: seq<OrderRow>): int
  {
    if day == [] then 0 else DeliveryOf(day[..|day| - 1]) + day[|day| - 1].deliveryCost
  }

  /** The number of deliveries. */
  function DeliveryCount(day: seq<OrderRow>): (n: nat)
    ensures n <= |day|
  {
    if day == [] then 0 else DeliveryCount(day[..|day| - 1]) + (if day[|day| - 1].isDelivery then 1 else 0)
  }

  datatype DayTotals = DayTotals(orders: nat, sales: int, delivery: int, deliveryOrders: nat)

  function Totals(day: seq<OrderRow>): DayTotals
  {
    DayTotals(|day|, SalesOf(day), DeliveryOf(day), DeliveryCount(day))
  }

  /** The line totals of each order, added up over the day. */
  function ItemSalesOf(items: seq<ItemRow>, day: seq<OrderRow>): int
  {
    if day == [] then 0
    else ItemSalesOf(items, day[..|day| - 1]) + Sum(LineTotals(LinesOf(items, day[|day| - 1].id)))
  }

  lemma {:induction false} SalesSplit(items: seq<ItemRow>, day: seq<OrderRow>)
    requires forall o :: o in day ==> o.total == Sum(LineTotals(LinesOf(items, o.id))) + o.deliveryCost
    ensures SalesOf(day) == ItemSalesOf(items, day) + DeliveryOf(day)
  {
    if day != [] {
      var init := day[..|day| - 1];
      assert forall o :: o in init ==> o in day;
      SalesSplit(items, init);
      assert day[|day| - 1] in day;
    }
  }

  /**
   * With the stored totals consistent, a day's sales are its line totals plus
   * its delivery charges, and at most every order of the day is a delivery.
   */
  lemma DailySalesSplit(orders: seq<OrderRow>, items: seq<ItemRow>, date: string)
    requires TotalsConsistent(orders, items)
    ensures var day := DayOrders(orders, date);
      && Totals(day).sales == ItemSalesOf(items, day) + Totals(day).delivery
      && Totals(day).deliveryOrders <= Totals(day).orders
  {
    var day := DayOrders(orders, date);
    forall o | o in day ensures o.total == Sum(LineTotals(LinesOf(items, o.id))) + o.deliveryCost {
      var k :| 0 <= k < |orders| && orders[k] == o;
    }
    SalesSplit(items, day);
  }

  lemma {:induction false} PickupsAddNoDelivery(day: seq<OrderRow>)
    requires forall o :: o in day ==> !o.isDelivery ==> o.deliveryCost == 0
    ensures DeliveryCount(day) == 0 ==> DeliveryOf(day) == 0
  {
    if day != [] {
      var init := day[..|day| - 1];
      assert forall o :: o in init ==> o in day;
      PickupsAddNoDelivery(init);
      assert day[|day| - 1] in day;
    }
  }

  /** A day without delivery orders has no delivery total. */
  lemma NoDeliveriesNoDeliveryTotal(orders: seq<OrderRow>, items: seq<ItemRow>, date: string)
    requires TotalsConsistent(orders, items)
    ensures Totals(DayOrders(orders, date)).deliveryOrders == 0 ==> Totals(DayOrders(orders, date)).delivery == 0
  {
    var day := DayOrders(orders, date);
    forall o | o in day ensures !o.isDelivery ==> o.deliveryCost == 0 {
      var k :| 0 <= k < |orders| && orders[k] == o;
    }
    PickupsAddNoDelivery(day);
  }

  // ---------------------------------------------------------------------
  // Sales rows: order lines joined to their order and product
  // ---------------------------------------------------------------------

  /** One row of the export query: an order line joined to its order and to its product. */
  datatype SaleRow = SaleRow(
    orderId: int,
    businessDay: string,
    name: string,
    masa: Option<string>,
    isSmall: bool,
    quantity: nat,
    unitPrice: int,
    lineTotal: int,
    isDelivery: bool,
    deliveryCost: int,
    orderTotal: int)

  /** The rows of one order, in line order; a line whose product row is gone drops out of the join. */
  function OrderSales(o: OrderRow, lines: seq<PricedLine>, products: seq<ProductRow>, date: string): (r: seq<SaleRow>)
    ensures forall s :: s in r ==> s.orderId == o.id && s.orderTotal == o.total
  {
    if lines == [] then []
    else
      var l := lines[|lines| - 1];
      OrderSales(o, lines[..|lines| - 1], products, date) +
        match FindRow(products, l.productId)
        case None => []
        case Some(p) =>
          [SaleRow(o.id, date, p.name, l.masa, p.isSmall, l.quantity, l.unitPrice, l.lineTotal,
                   o.isDelivery, o.deliveryCost, o.total)]
  }

  /** `ORDER BY o.id, oi.id`: the day's orders in id order, each with its lines in id order. */
  function SaleRows(day: seq<OrderRow>, items: seq<ItemRow>, products: seq<ProductRow>, date: string): (r: seq<SaleRow>)
    ensures forall s :: s in r ==> exists k :: 0 <= k < |day| && day[k].id == s.orderId && day[k].total == s.orderTotal
  {
    if day == [] then []
    else
      var init := day[..|day| - 1];
      var last := day[|day| - 1];
      var before := SaleRows(init, items, products, date);
      assert forall s :: s in before ==> exists k :: 0 <= k < |day| && day[k].id == s.orderId && day[k].total == s.orderTotal by {
        forall s | s in before ensures exists k :: 0 <= k < |day| && day[k].id == s.orderId && day[k].total == s.orderTotal {
          var k :| 0 <= k < |init| && init[k].id == s.orderId && init[k].total == s.orderTotal;
          assert day[k] == init[k];
        }
      }
      before + OrderSales(last, LinesOf(items, last.id), products, date)
  }

  /** The query the report runs for a day. */
  function DaySales(orders: seq<OrderRow>, items: seq<ItemRow>, products: seq<ProductRow>, date: string): seq<SaleRow>
  {
    SaleRows(DayOrders(orders, date), items, products, date)
  }

  /** The day's orders keep the table's id order. */
  lemma {:induction false} DayOrdersAscending(orders: seq<OrderRow>, date: string)
    requires OrderIdsAscending(orders)
    ensures OrderIdsAscending(DayOrders(orders, date))
  {
    if orders != [] {
      var init := orders[..|orders| - 1];
      var last := orders[|orders| - 1];
      DayOrdersAscending(init, date);
      var d := DayOrders(init, date);
      forall o | o in d ensures o.id < last.id {
        var k :| 0 <= k < |init| && init[k] == o;
      }
      assert forall i :: 0 <= i < |d| ==> d[i] in d;
    }
  }

  /** An order has no sales rows exactly when none of its lines names a product row that still exists. */
  lemma {:induction false} OrderSalesEmpty(o: OrderRow, lines: seq<PricedLine>, products: seq<ProductRow>, date: string)
    ensures OrderSales(o, lines, products, date) == [] <==> forall l :: l in lines ==> FindRow(products, l.productId).None?
  {
    if lines != [] {
      var init := lines[..|lines| - 1];
      OrderSalesEmpty(o, init, products, date);
      assert lines == init + [lines[|lines| - 1]];
    }
  }

  /** A day has no sales rows exactly when none of its orders has one. */
  lemma {:induction false} SaleRowsEmpty(day: seq<OrderRow>, items: seq<ItemRow>, products: seq<ProductRow>, date: string)
    ensures SaleRows(day, items, products, date) == [] <==>
      forall o :: o in day ==> OrderSales(o, LinesOf(items, o.id), products, date) == []
  {
    if day != [] {
      var init := day[..|day| - 1];
      SaleRowsEmpty(init, items, products, date);
      assert day == init + [day[|day| - 1]];
    }
  }

  // ---------------------------------------------------------------------
  // The daily report
  // ---------------------------------------------------------------------

  datatype DailyReport = DailyReport(
    date: string,
    totals: DayTotals,
    products: seq<Tally<(string, Option<string>, bool)>>,
    topProducts: seq<Tally<string>>)

  /** `GET /api/reports/daily/:date`: 400 unless the date has the `YYYY-MM-DD` shape. */
  function Daily(orders: seq<OrderRow>, items: seq<ItemRow>, products: seq<ProductRow>, date: string): (r: Result<DailyReport, ReportError>)
    ensures r.Failure? <==> !IsDateShape(date)
    ensures r.Failure? ==> StatusCode(r.error) == 400
    ensures r.Success? ==> r.value.date == date && r.value.totals.orders == |DayOrders(orders, date)|
    ensures r.Success? ==> |r.value.topProducts| <= 5
  {
    if !IsDateShape(date) then Failure(BadDate)
    else
      var rows := DaySales(orders, items, products, date);
      Success(DailyReport(date, Totals(DayOrders(orders, date)), ProductSummary(rows), TopProducts(rows)))
  }

  // ---------------------------------------------------------------------
  // Grouping
  // ---------------------------------------------------------------------

  /** One group: its key, `SUM(oi.quantity)` and `SUM(oi.line_total)`. */
  datatype Tally<K> = Tally(key: K, quantity: int, sales: int)

  /** `GROUP BY p.name, oi.masa, p.is_small`. */
  function SummaryKey(r: SaleRow): (string, Option<string>, bool)
  {
    (r.name, r.masa, r.isSmall)
  }

  /** `GROUP BY p.name`. */
  function ProductName(r: SaleRow): string
  {
    r.name
  }

  function GroupQuantity<K(==,!new)>(rows: seq<SaleRow>, key: SaleRow -> K, k: K): int
  {
    if rows == [] then 0
    else GroupQuantity(rows[..|rows| - 1], key, k) + (if key(rows[|rows| - 1]) == k then rows[|rows| - 1].quantity else 0)
  }

  function GroupSales<K(==,!new)>(rows: seq<SaleRow>, key: SaleRow -> K, k: K): int
  {
    if rows == [] then 0
    else GroupSales(rows[..|rows| - 1], key, k) + (if key(rows[|rows| - 1]) == k then rows[|rows| - 1].lineTotal else 0)
  }

  /** The tally of the group with key `k`. */
  function TallyOf<K(==,!new)>(rows: seq<SaleRow>, key: SaleRow -> K, k: K): Tally<K>
  {
    Tally(k, GroupQuantity(rows, key, k), GroupSales(rows, key, k))
  }

  /** The distinct keys, in order of first appearance. */
  function Keys<K(==,!new)>(rows: seq<SaleRow>, key: SaleRow -> K): (r: seq<K>)
    ensures forall i, j :: 0 <= i < j < |r| ==> r[i] != r[j]
    ensures forall k :: k in r <==> exists i :: 0 <= i < |rows| && key(rows[i]) == k
  {
    if rows == [] then []
    else
      var init := rows[..|rows| - 1];
      var ks := Keys(init, key);
      assert forall i :: 0 <= i < |init| ==> init[i] == rows[i];
      if key(rows[|rows| - 1]) in ks then ks else ks + [key(rows[|rows| - 1])]
  }

  function Tallies<K(==,!new)>(rows: seq<SaleRow>, key: SaleRow -> K): (r: seq<Tally<K>>)
    ensures |r| == |Keys(rows, key)|
    ensures forall i :: 0 <= i < |r| ==> r[i] == TallyOf(rows, key, Keys(rows, key)[i])
  {
    var ks := Keys(rows, key);
    seq(|ks|, i requires 0 <= i < |ks| => TallyOf(rows, key, ks[i]))
  }

  // ---------------------------------------------------------------------
  // Ordering the groups
  // ---------------------------------------------------------------------

  /** `total_quantity` or `total_sales`, whichever the query orders by. */
  function Measure<K>(t: Tally<K>, byQuantity: bool): int
  {
    if byQuantity then t.quantity else t.sales
  }

  /** `ORDER BY ... DESC`. */
  ghost predicate Descending<K>(ts: seq<Tally<K>>, byQuantity: bool)
  {
    forall i, j :: 0 <= i < j < |ts| ==> Measure(ts[j], byQuantity) <= Measure(ts[i], byQuantity)
  }

  lemma ConsDescending<K>(h: Tally<K>, ts: seq<Tally<K>>, byQuantity: bool)
    requires Descending(ts, byQuantity)
    requires ts != [] ==> Measure(ts[0], byQuantity) <= Measure(h, byQuantity)
    ensures Descending([h] + ts, byQuantity)
  {
    var r := [h] + ts;
    forall i, j | 0 <= i < j < |r| ensures Measure(r[j], byQuantity) <= Measure(r[i], byQuantity) {
      assert r[j] == ts[j - 1];
      if i > 0 {
        assert r[i] == ts[i - 1];
      } else if j > 1 {
        assert Measure(ts[j - 1], byQuantity) <= Measure(ts[0], byQuantity);
      }
    }
  }

  function InsertDesc<K(==,!new)>(t: Tally<K>, ts: seq<Tally<K>>, byQuantity: bool): (r: seq<Tally<K>>)
    requires Descending(ts, byQuantity)
    ensures |r| == |ts| + 1
    ensures Descending(r, byQuantity)
    ensures multiset(r) == multiset(ts) + multiset{t}
    ensures r[0] == t || (ts != [] && r[0] == ts[0])
  {
    if ts == [] then [t]
    else if Measure(ts[0], byQuantity) < Measure(t, byQuantity) then
      ConsDescending(t, ts, byQuantity);
      [t] + ts
    else
      var rest := InsertDesc(t, ts[1..], byQuantity);
      assert ts == [ts[0]] + ts[1..];
      ConsDescending(ts[0], rest, byQuantity);
      [ts[0]] + rest
  }

  /** Insertion sort, largest measure first. */
  function SortDesc<K(==,!new)>(ts: seq<Tally<K>>, byQuantity: bool): (r: seq<Tally<K>>)
    ensures Descending(r, byQuantity)
    ensures multiset(r) == multiset(ts)
  {
    if ts == [] then []
    else
      assert ts == [ts[0]] + ts[1..];
      InsertDesc(ts[0], SortDesc(ts[1..], byQuantity), byQuantity)
  }

  /** The product summary of the daily report: `ORDER BY total_sales DESC`. */
  function ProductSummary(rows: seq<SaleRow>): seq<Tally<(string, Option<string>, bool)>>
  {
    SortDesc(Tallies(rows, SummaryKey), false)
  }

  /** The top products: grouped by name, `ORDER BY total_quantity DESC LIMIT 5`. */
  function TopProducts(rows: seq<SaleRow>): (r: seq<Tally<string>>)
    ensures |r| <= 5
  {
    var sorted := SortDesc(Tallies(rows, ProductName), true);
    if |sorted| <= 5 then sorted else sorted[..5]
  }

  // ---------------------------------------------------------------------
  // What the grouping promises
  // ---------------------------------------------------------------------

  lemma {:induction false} DistinctCountsOnce<T>(s: seq<T>, v: T)
    requires forall i, j :: 0 <= i < j < |s| ==> s[i] != s[j]
    ensures multiset(s)[v] <= 1
  {
    if s != [] {
      var init := s[..|s| - 1];
      DistinctCountsOnce(init, v);
      assert s == init + [s[|s| - 1]];
      forall j | 0 <= j < |init| ensures init[j] != s[|s| - 1] {
        assert init[j] == s[j];
      }
      assert s[|s| - 1] !in init;
    }
  }

  lemma RepeatCountsTwice<T>(s: seq<T>, i: int, j: int)
    requires 0 <= i < j < |s| && s[i] == s[j]
    ensures multiset(s)[s[i]] >= 2
  {
    assert s == s[..j] + s[j..];
    assert s[i] in s[..j] && s[j] in s[j..];
  }

  lemma SortedSameMembers<K(!new)>(ts: seq<Tally<K>>, byQuantity: bool)
    ensures forall x :: x in SortDesc(ts, byQuantity) <==> x in ts
  {
    var s := SortDesc(ts, byQuantity);
    forall x ensures x in s <==> x in ts {
      assert x in s <==> x in multiset(s);
      assert x in ts <==> x in multiset(ts);
    }
  }

  lemma TalliesMembers<K(!new)>(rows: seq<SaleRow>, key: SaleRow -> K)
    ensures forall x :: x in Tallies(rows, key) ==> x == TallyOf(rows, key, x.key) && x.key in Keys(rows, key)
    ensures forall k :: k in Keys(rows, key) ==> TallyOf(rows, key, k) in Tallies(rows, key)
  {
    var ts := Tallies(rows, key);
    var ks := Keys(rows, key);
    forall k | k in ks ensures TallyOf(rows, key, k) in ts {
      var i :| 0 <= i < |ks| && ks[i] == k;
      assert ts[i] == TallyOf(rows, key, k);
    }
  }

  /** Every sorted entry is the tally of its key, and every key of the rows has its entry. */
  lemma SortedTalliesCorrect<K(!new)>(rows: seq<SaleRow>, key: SaleRow -> K, byQuantity: bool)
    ensures var s := SortDesc(Tallies(rows, key), byQuantity);
      && (forall i :: 0 <= i < |s| ==> s[i] == TallyOf(rows, key, s[i].key))
      && (forall i :: 0 <= i < |s| ==> exists k :: 0 <= k < |rows| && key(rows[k]) == s[i].key)
      && (forall k :: 0 <= k < |rows| ==> TallyOf(rows, key, key(rows[k])) in s)
  {
    var s := SortDesc(Tallies(rows, key), byQuantity);
    SortedSameMembers(Tallies(rows, key), byQuantity);
    TalliesMembers(rows, key);
    forall i | 0 <= i < |s| ensures s[i] == TallyOf(rows, key, s[i].key) && s[i].key in Keys(rows, key) {
      assert s[i] in Tallies(rows, key);
    }
    forall k | 0 <= k < |rows| ensures TallyOf(rows, key, key(rows[k])) in s {
      assert key(rows[k]) in Keys(rows, key);
    }
  }

  /** No key appears twice among the sorted entries. */
  lemma SortedKeysDistinct<K(!new)>(rows: seq<SaleRow>, key: SaleRow -> K, byQuantity: bool)
    ensures var s := SortDesc(Tallies(rows, key), byQuantity);
      forall i, j :: 0 <= i < j < |s| ==> s[i].key != s[j].key
  {
    var ts := Tallies(rows, key);
    var s := SortDesc(ts, byQuantity);
    SortedTalliesCorrect(rows, key, byQuantity);
    assert forall a, b :: 0 <= a < b < |ts| ==> ts[a] != ts[b];
    forall i, j | 0 <= i < j < |s| ensures s[i].key != s[j].key {
      DistinctCountsOnce(ts, s[i]);
      if s[i].key == s[j].key {
        RepeatCountsTwice(s, i, j);
      }
    }
  }

  /**
   * The product summary has one entry per (name, masa, is_small) group of the
   * rows, each with the group's summed quantity and line totals, in
   * descending order of sales.
   */
  lemma ProductSummarySound(rows: seq<SaleRow>)
    ensures var s := ProductSummary(rows);
      && Descending(s, false)
      && (forall i :: 0 <= i < |s| ==> s[i] == TallyOf(rows, SummaryKey, s[i].key))
      && (forall i, j :: 0 <= i < j < |s| ==> s[i].key != s[j].key)
      && (forall i :: 0 <= i < |s| ==> exists k :: 0 <= k < |rows| && SummaryKey(rows[k]) == s[i].key)
      && (forall k :: 0 <= k < |rows| ==> TallyOf(rows, SummaryKey, SummaryKey(rows[k])) in s)
  {
    SortedTalliesCorrect(rows, SummaryKey, false);
    SortedKeysDistinct(rows, SummaryKey, false);
  }

  /** An entry of a descending sequence that is not among its first `n` measures no more than any of them. */
  lemma LeftOutOfPrefix<K>(s: seq<Tally<K>>, n: nat, x: Tally<K>, byQuantity: bool)
    requires Descending(s, byQuantity) && n <= |s|
    requires x in s && x !in s[..n]
    ensures forall i :: 0 <= i < n ==> Measure(x, byQuantity) <= Measure(s[i], byQuantity)
  {
    var p :| 0 <= p < |s| && s[p] == x;
    assert forall i :: 0 <= i < n ==> s[..n][i] == s[i];
    assert n <= p;
  }

  /** The top products are the first (at most five) entries of the name groups sorted by quantity. */
  lemma TopIsPrefix(rows: seq<SaleRow>)
    ensures var s := SortDesc(Tallies(rows, ProductName), true);
      && |TopProducts(rows)| == (if |s| <= 5 then |s| else 5)
      && TopProducts(rows) == s[..|TopProducts(rows)|]
  {
  }

  /** Each top product is the tally of a name that was sold, no name is listed twice, and they come in descending order of quantity. */
  lemma TopEntries(rows: seq<SaleRow>)
    ensures var t := TopProducts(rows);
      && Descending(t, true)
      && (forall i :: 0 <= i < |t| ==> t[i] == TallyOf(rows, ProductName, t[i].key))
      && (forall i, j :: 0 <= i < j < |t| ==> t[i].key != t[j].key)
      && (forall i :: 0 <= i < |t| ==> exists k :: 0 <= k < |rows| && rows[k].name == t[i].key)
  {
    var s := SortDesc(Tallies(rows, ProductName), true);
    var t := TopProducts(rows);
    TopIsPrefix(rows);
    SortedTalliesCorrect(rows, ProductName, true);
    SortedKeysDistinct(rows, ProductName, true);
    assert forall i :: 0 <= i < |t| ==> t[i] == s[i];
  }

  /** A name left out of the top products sold no more than any name listed. */
  lemma TopLeftOut(rows: seq<SaleRow>)
    ensures var t := TopProducts(rows);
      forall k :: 0 <= k < |rows| && TallyOf(rows, ProductName, rows[k].name) !in t ==>
        forall i :: 0 <= i < |t| ==> GroupQuantity(rows, ProductName, rows[k].name) <= t[i].quantity
  {
    var s := SortDesc(Tallies(rows, ProductName), true);
    var t := TopProducts(rows);
    TopIsPrefix(rows);
    SortedTalliesCorrect(rows, ProductName, true);
    forall k | 0 <= k < |rows| && TallyOf(rows, ProductName, rows[k].name) !in t
      ensures forall i :: 0 <= i < |t| ==> GroupQuantity(rows, ProductName, rows[k].name) <= t[i].quantity
    {
      assert ProductName(rows[k]) == rows[k].name;
      LeftOutOfPrefix(s, |t|, TallyOf(rows, ProductName, rows[k].name), true);
    }
  }

  /** With at most five names sold, every name is among the top products. */
  lemma TopAllWhenFew(rows: seq<SaleRow>)
    ensures |Keys(rows, ProductName)| <= 5 ==>
      forall k :: 0 <= k < |rows| ==> TallyOf(rows, ProductName, rows[k].name) in TopProducts(rows)
  {
    var s := SortDesc(Tallies(rows, ProductName), true);
    TopIsPrefix(rows);
    SortedTalliesCorrect(rows, ProductName, true);
    assert |s| == |Keys(rows, ProductName)| by {
      assert |multiset(s)| == |multiset(Tallies(rows, ProductName))|;
    }
    assert forall k :: 0 <= k < |rows| ==> ProductName(rows[k]) == rows[k].name;
  }
}
