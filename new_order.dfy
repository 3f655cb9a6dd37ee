/**
 * The order form of the web client: a draft holding the lines entered so
 * far, the line being entered and the delivery fields; the subtotals and the
 * total it previews; and the request body it sends when submitted.
 */
module NewOrder {
  import opened Common
  import opened Pricing
  import opened Orders
  import opened Catalogue

  /**
   * One line of the draft. `productId` is `None` while the empty option is
   * selected; `quantity` is `None` while the number input is empty.
   */
  datatype DraftItem = DraftItem(productId: Option<int>, masa: Option<string>, quantity: Option<int>)

  /** The line the form starts from and returns to after each addition. */
  const Blank: DraftItem := DraftItem(None, Some(Maiz), Some(1))

  /** The messages the form shows instead of acting. */
  datatype DraftError = ProductMissing | QuantityNotPositive | ListEmpty | InvalidDeliveryCost

  /** The state of the form; `deliveryCost` is `None` while its input is empty. */
  datatype Draft = Draft(items: seq<DraftItem>, newItem: DraftItem, isDelivery: bool,
                         deliveryCost: Option<int>, error: Option<DraftError>)

  // ---------------------------------------------------------------------
  // The preview
  // ---------------------------------------------------------------------

  /** The first listed product with this id, if any. */
  function FindListed(products: seq<ListedProduct>, id: int): (r: Option<ListedProduct>)
    ensures r.None? <==> forall k :: 0 <= k < |products| ==> products[k].id != id
    ensures r.Some? ==> exists k :: 0 <= k < |products| && products[k] == r.value && r.value.id == id
  {
    if products == [] then None
    else if products[0].id == id then Some(products[0])
    else
      var r := FindListed(products[1..], id);
      assert forall k :: 1 <= k < |products| ==> products[k] == products[1..][k - 1];
      r
  }

  /** The product a line refers to; an unselected product matches no entry. */
  function Selected(products: seq<ListedProduct>, item: DraftItem): Option<ListedProduct>
  {
    if item.productId.None? then None else FindListed(products, item.productId.value)
  }

  /** The quantity as the preview reads it: an empty input counts as no units. */
  function ParsedQuantity(quantity: Option<int>): int
  {
    quantity.GetOr(0)
  }

  /** JavaScript's `%`: the remainder takes the sign of the dividend. */
  function JsRem(a: int, b: int): int
    requires b > 0
  {
    if a >= 0 then a % b else -((-a) % b)
  }

  /**
   * The two branches of the subtotal: one bundle price per complete group of
   * three (`Math.floor`, which Dafny's `/` by a positive divisor matches) plus
   * the remaining units, or quantity times price. For a quantity that is not
   * negative this is the server's pricing rule.
   */
  function PreviewLine(quantity: int, price: int, promotion: bool): (r: int)
    ensures quantity >= 0 ==> r == LineTotal(quantity, price, promotion)
  {
    if promotion then (quantity / BundleSize) * BundlePrice + JsRem(quantity, BundleSize) * price
    else quantity * price
  }

  /**
   * `product.is_small` read on an entry of the product listing. The listing's
   * entries carry `has_small_version` and no `is_small` key, so the read
   * yields `undefined`, which the `if` treats as false.
   */
  function IsSmallKey(p: ListedProduct): bool
  {
    false
  }

  /** `calculateItemSubtotal` as written: the promotion test reads `product.is_small`. */
  function ItemSubtotalAsWritten(products: seq<ListedProduct>, item: DraftItem): (r: int)
    ensures Selected(products, item).None? ==> r == 0
    ensures Selected(products, item).Some? ==> r == ParsedQuantity(item.quantity) * Selected(products, item).value.price
  {
    match Selected(products, item)
    case None => 0
    case Some(p) => PreviewLine(ParsedQuantity(item.quantity), p.price, IsSmallKey(p))
  }

  /**
   * `calculateItemSubtotal` with the promotion test reading the flag the
   * listing does carry: 0 for an unknown product, otherwise the server's rule
   * on the listed price and flag.
   */
  function ItemSubtotal(products: seq<ListedProduct>, item: DraftItem): (r: int)
    ensures Selected(products, item).None? ==> r == 0
    ensures Selected(products, item).Some? && ParsedQuantity(item.quantity) >= 0 ==>
      var p := Selected(products, item).value;
      r == LineTotal(ParsedQuantity(item.quantity), p.price, p.hasSmallVersion)
  {
    match Selected(products, item)
    case None => 0
    case Some(p) => PreviewLine(ParsedQuantity(item.quantity), p.price, p.hasSmallVersion)
  }

  function Subtotals(products: seq<ListedProduct>, items: seq<DraftItem>): (r: seq<int>)
    ensures |r| == |items|
  {
    seq(|items|, k requires 0 <= k < |items| => ItemSubtotal(products, items[k]))
  }

  /**
   * `calculateTotal` over the corrected subtotals: the sum of `ItemSubtotal`
   * over the lines, plus the delivery cost (0 when empty) for a delivery.
   */
  function PreviewTotal(products: seq<ListedProduct>, items: seq<DraftItem>, isDelivery: bool, deliveryCost: Option<int>): int
  {
    Sum(Subtotals(products, items)) + DeliveryCharge(isDelivery, deliveryCost)
  }

  /** Adding a line to the draft adds exactly its subtotal to the previewed total. */
  lemma PreviewTotalAppend(products: seq<ListedProduct>, items: seq<DraftItem>, item: DraftItem,
                           isDelivery: bool, deliveryCost: Option<int>)
    ensures PreviewTotal(products, items + [item], isDelivery, deliveryCost)
         == PreviewTotal(products, items, isDelivery, deliveryCost) + ItemSubtotal(products, item)
  {
    assert Subtotals(products, items + [item]) == Subtotals(products, items) + [ItemSubtotal(products, item)];
    SumAppend(Subtotals(products, items), [ItemSubtotal(products, item)]);
  }

  function SubtotalsAsWritten(products: seq<ListedProduct>, items: seq<DraftItem>): (r: seq<int>)
    ensures |r| == |items|
  {
    seq(|items|, k requires 0 <= k < |items| => ItemSubtotalAsWritten(products, items[k]))
  }

  /**
   * `calculateTotal` as written: the sum of `calculateItemSubtotal` as written
   * over the lines, plus the delivery cost (0 when empty) for a delivery.
   */
  function PreviewTotalAsWritten(products: seq<ListedProduct>, items: seq<DraftItem>, isDelivery: bool, deliveryCost: Option<int>): int
  {
    Sum(SubtotalsAsWritten(products, items)) + DeliveryCharge(isDelivery, deliveryCost)
  }

  /** As written, adding a line adds exactly its quantity times its listed price (0 if unlisted). */
  lemma PreviewTotalAsWrittenAppend(products: seq<ListedProduct>, items: seq<DraftItem>, item: DraftItem,
                                    isDelivery: bool, deliveryCost: Option<int>)
    ensures PreviewTotalAsWritten(products, items + [item], isDelivery, deliveryCost)
         == PreviewTotalAsWritten(products, items, isDelivery, deliveryCost)
            + (if Selected(products, item).None? then 0
               else ParsedQuantity(item.quantity) * Selected(products, item).value.price)
  {
    assert SubtotalsAsWritten(products, items + [item])
        == SubtotalsAsWritten(products, items) + [ItemSubtotalAsWritten(products, item)];
    SumAppend(SubtotalsAsWritten(products, items), [ItemSubtotalAsWritten(products, item)]);
  }

  /** With no promotion product among the selected ones, the two previews agree. */
  lemma PreviewTotalsAgree(products: seq<ListedProduct>, items: seq<DraftItem>, isDelivery: bool, deliveryCost: Option<int>)
    requires forall k :: 0 <= k < |items| ==>
      Selected(products, items[k]).None? || !Selected(products, items[k]).value.hasSmallVersion
    ensures PreviewTotalAsWritten(products, items, isDelivery, deliveryCost)
         == PreviewTotal(products, items, isDelivery, deliveryCost)
  {
    assert SubtotalsAsWritten(products, items) == Subtotals(products, items);
  }

  // ---------------------------------------------------------------------
  // Adding, removing and submitting lines
  // ---------------------------------------------------------------------

  /** A line `addItem` lets through: a product is selected and the quantity is positive. */
  predicate Ready(item: DraftItem)
  {
    item.productId.Some? && item.quantity.Some? && item.quantity.value > 0
  }

  /**
   * `addItem`: no selected product, or an empty or non-positive quantity,
   * only sets the message; otherwise a copy of the line goes to the end of the
   * list, the line is reset and the message cleared.
   */
  function Add(d: Draft): Draft
  {
    if d.newItem.productId.None? then d.(error := Some(ProductMissing))
    else if d.newItem.quantity.None? || d.newItem.quantity.value <= 0 then d.(error := Some(QuantityNotPositive))
    else d.(items := d.items + [d.newItem], newItem := Blank, error := None)
  }

  /**
   * The list grows by one line exactly when the entered line is ready; the
   * line added is the entered one, and every line in the list stays ready.
   */
  lemma AddOutcome(d: Draft)
    ensures Ready(d.newItem) <==> |Add(d).items| == |d.items| + 1
    ensures Ready(d.newItem) ==> Add(d).items == d.items + [d.newItem] && Add(d).newItem == Blank && Add(d).error.None?
    ensures !Ready(d.newItem) ==> Add(d).items == d.items && Add(d).newItem == d.newItem && Add(d).error.Some?
    ensures (forall k :: 0 <= k < |d.items| ==> Ready(d.items[k])) ==>
            (forall k :: 0 <= k < |Add(d).items| ==> Ready(Add(d).items[k]))
  {
  }

  /** The list without the line at `index`, by filtering on positions. */
  function Remove(items: seq<DraftItem>, index: int): seq<DraftItem>
  {
    if items == [] then []
    else Remove(items[..|items| - 1], index) + (if |items| - 1 == index then [] else [items[|items| - 1]])
  }

  /**
   * Removing drops exactly the line at `index` and keeps the others in order;
   * an index outside the list leaves it as it is.
   */
  lemma {:induction false} RemoveDropsIndex(items: seq<DraftItem>, index: int)
    ensures 0 <= index < |items| ==> Remove(items, index) == items[..index] + items[index + 1..]
    ensures !(0 <= index < |items|) ==> Remove(items, index) == items
  {
    if items != [] {
      var init := items[..|items| - 1];
      RemoveDropsIndex(init, index);
      if index == |items| - 1 {
        assert items[..index] == init;
        assert items[index + 1..] == [];
      } else if 0 <= index < |items| - 1 {
        assert items[..index] == init[..index];
        assert items[index + 1..] == init[index + 1..] + [items[|items| - 1]];
      } else {
        assert items == init + [items[|items| - 1]];
      }
    }
  }

  /** The request line sent for a draft line: the form's fields under the API's names. */
  function SentItem(item: DraftItem): RequestItem
  {
    RequestItem(item.productId, item.quantity, item.masa)
  }

  function Sent(items: seq<DraftItem>): (r: seq<RequestItem>)
    ensures |r| == |items|
  {
    seq(|items|, k requires 0 <= k < |items| => SentItem(items[k]))
  }

  /**
   * The checks of `handleSubmit`, then the body it sends: the lines, the
   * delivery flag, the parsed cost for a delivery and 0 otherwise, and the
   * selected business day.
   */
  function Check(d: Draft, selectedDate: Option<string>): Result<OrderRequest, DraftError>
  {
    if d.items == [] then Failure(ListEmpty)
    else if d.isDelivery && (d.deliveryCost.None? || d.deliveryCost.value < 0) then Failure(InvalidDeliveryCost)
    else Success(OrderRequest(selectedDate, Some(d.isDelivery), Some(if d.isDelivery then d.deliveryCost.value else 0),
                              Some(Sent(d.items))))
  }

  /**
   * A submission is stopped exactly when the list is empty or a delivery has
   * an empty or negative cost; what is sent carries the draft's lines in
   * order, and a cost of 0 for a pickup whatever the cost field holds.
   */
  lemma CheckOutcome(d: Draft, selectedDate: Option<string>)
    ensures Check(d, selectedDate) == Failure(ListEmpty) <==> d.items == []
    ensures Check(d, selectedDate) == Failure(InvalidDeliveryCost) <==>
      d.items != [] && d.isDelivery && (d.deliveryCost.None? || d.deliveryCost.value < 0)
    ensures Check(d, selectedDate).Success? ==>
      var req := Check(d, selectedDate).value;
      && req.businessDay == selectedDate
      && req.items == Some(Sent(d.items))
      && req.isDelivery == Some(d.isDelivery)
      && req.deliveryCost.Some? && req.deliveryCost.value >= 0
      && (!d.isDelivery ==> req.deliveryCost == Some(0))
  {
  }

  // ---------------------------------------------------------------------
  // Preview against the server
  // ---------------------------------------------------------------------

  /**
   * The lookup the server prices with agrees with the listing the form shows:
   * every listed id is a stored, non-zero id priced at the listed price and
   * flag, and no two listed products share an id.
   */
  ghost predicate PricedAsListed(listing: seq<ListedProduct>, lookup: map<int, PriceInfo>)
  {
    && (forall i :: 0 <= i < |listing| ==>
          listing[i].id != 0 && listing[i].id in lookup
          && lookup[listing[i].id] == PriceInfo(listing[i].price, listing[i].hasSmallVersion))
    && (forall i, j :: 0 <= i < |listing| && 0 <= j < |listing| && listing[i].id == listing[j].id ==> i == j)
  }

  /**
   * When every product keeps one price and one flag across its rows and ids
   * are positive, the product listing and the server's price lookup agree.
   */
  lemma ListingPricedAsListed(c: Catalog)
    requires IdsAscending(c.rows) && SameTerms(c.rows)
    requires forall k :: 0 <= k < |c.rows| ==> c.rows[k].id > 0
    ensures PricedAsListed(Listing(c.rows), PriceLookup(c.rows))
  {
    forall i | 0 <= i < |Listing(c.rows)|
      ensures Listing(c.rows)[i].id != 0 && Listing(c.rows)[i].id in PriceLookup(c.rows)
      ensures PriceLookup(c.rows)[Listing(c.rows)[i].id] == PriceInfo(Listing(c.rows)[i].price, Listing(c.rows)[i].hasSmallVersion)
    {
      ListedTermsAreStored(c, i);
    }
    forall i, j | 0 <= i < |Listing(c.rows)| && 0 <= j < |Listing(c.rows)| && Listing(c.rows)[i].id == Listing(c.rows)[j].id
      ensures i == j
    {
      ListingIdsDistinct(c.rows, i, j);
    }
  }

  /** A ready line naming a listed product is stored at the listed terms, with its corrected subtotal as line total. */
  lemma ListedLinePriced(listing: seq<ListedProduct>, lookup: map<int, PriceInfo>, item: DraftItem)
    requires PricedAsListed(listing, lookup)
    requires Ready(item) && Selected(listing, item).Some?
    ensures PriceItem(lookup, SentItem(item)).Success?
    ensures PriceItem(lookup, SentItem(item)).value.lineTotal == ItemSubtotal(listing, item)
  {
    var p := Selected(listing, item).value;
    var i :| 0 <= i < |listing| && listing[i] == p && p.id == item.productId.value;
  }

  /**
   * Against a lookup that agrees with the listing, a submission the form lets
   * through, with every line naming a listed product, is accepted by the
   * create handler, which stores a total equal to the corrected preview total.
   */
  lemma SubmittedTotalMatches(listing: seq<ListedProduct>, lookup: map<int, PriceInfo>, db: Db, d: Draft, date: string)
    requires PricedAsListed(listing, lookup)
    requires forall k :: 0 <= k < |d.items| ==> Ready(d.items[k]) && Selected(listing, d.items[k]).Some?
    requires date != ""
    requires Check(d, Some(date)).Success?
    ensures CreateOrder(db, lookup, Check(d, Some(date)).value).response.Success?
    ensures CreateOrder(db, lookup, Check(d, Some(date)).value).response.value.total
         == PreviewTotal(listing, d.items, d.isDelivery, d.deliveryCost)
  {
    var sent := Sent(d.items);
    forall k | 0 <= k < |sent|
      ensures PriceItem(lookup, sent[k]).Success?
      ensures PriceItem(lookup, sent[k]).value.lineTotal == Subtotals(listing, d.items)[k]
    {
      ListedLinePriced(listing, lookup, d.items[k]);
    }
    PriceItemsAllPass(lookup, sent);
    PriceItemsSuccess(lookup, sent);
    var lines := PriceItems(lookup, sent).value;
    assert LineTotals(lines) == Subtotals(listing, d.items);
  }

  /**
   * What the form previews is what the server stores: with one price and one
   * flag per product and positive ids, every submission of listed products
   * that the form lets through is stored with the corrected preview total.
   */
  lemma SubmittedTotalMatchesPreview(c: Catalog, db: Db, d: Draft, date: string)
    requires IdsAscending(c.rows) && SameTerms(c.rows)
    requires forall k :: 0 <= k < |c.rows| ==> c.rows[k].id > 0
    requires forall k :: 0 <= k < |d.items| ==> Ready(d.items[k]) && Selected(Listing(c.rows), d.items[k]).Some?
    requires date != ""
    requires Check(d, Some(date)).Success?
    ensures CreateOrder(db, PriceLookup(c.rows), Check(d, Some(date)).value).response.Success?
    ensures CreateOrder(db, PriceLookup(c.rows), Check(d, Some(date)).value).response.value.total
         == PreviewTotal(Listing(c.rows), d.items, d.isDelivery, d.deliveryCost)
  {
    ListingPricedAsListed(c);
    SubmittedTotalMatches(Listing(c.rows), PriceLookup(c.rows), db, d, date);
  }

  /**
   * Against a lookup that agrees with the listing, the preview as written
   * prices three units of a promotion product at three times the listed
   * price, which never equals the bundle price the server stores for them;
   * the corrected preview shows the bundle price.
   */
  lemma AsWrittenMissesPromotion(listing: seq<ListedProduct>, lookup: map<int, PriceInfo>, i: int, masa: Option<string>)
    requires PricedAsListed(listing, lookup)
    requires 0 <= i < |listing| && listing[i].hasSmallVersion
    ensures var item := DraftItem(Some(listing[i].id), masa, Some(3));
      && ItemSubtotalAsWritten(listing, item) == 3 * listing[i].price
      && PriceItem(lookup, SentItem(item)) == Success(PricedLine(listing[i].id, StoredMasa(masa), 3, listing[i].price, BundlePrice))
      && ItemSubtotalAsWritten(listing, item) != BundlePrice
      && ItemSubtotal(listing, item) == BundlePrice
  {
    var e := listing[i];
    var p := FindListed(listing, e.id).value;
    var j :| 0 <= j < |listing| && listing[j] == p && p.id == e.id;
    assert 3 * e.price != BundlePrice by {
      if e.price <= 33 { assert 3 * e.price <= 99; } else { assert 3 * e.price >= 102; }
    }
  }

  /** The same discrepancy for every promotion product of a catalogue with one price and one flag per product. */
  lemma AsWrittenPreviewMissesPromotion(c: Catalog, i: int, masa: Option<string>)
    requires IdsAscending(c.rows) && SameTerms(c.rows)
    requires forall k :: 0 <= k < |c.rows| ==> c.rows[k].id > 0
    requires 0 <= i < |Listing(c.rows)| && Listing(c.rows)[i].hasSmallVersion
    ensures var item := DraftItem(Some(Listing(c.rows)[i].id), masa, Some(3));
      && ItemSubtotalAsWritten(Listing(c.rows), item) == 3 * Listing(c.rows)[i].price
      && PriceItem(PriceLookup(c.rows), SentItem(item))
         == Success(PricedLine(Listing(c.rows)[i].id, StoredMasa(masa), 3, Listing(c.rows)[i].price, BundlePrice))
      && ItemSubtotalAsWritten(Listing(c.rows), item) != BundlePrice
      && ItemSubtotal(Listing(c.rows), item) == BundlePrice
  {
    ListingPricedAsListed(c);
    AsWrittenMissesPromotion(Listing(c.rows), PriceLookup(c.rows), i, masa);
  }

  /** A catalogue holding one product, created with the promotion flag at 0.50. */
  function PromotionCatalogue(): Catalog
  {
    CreateProduct(Catalog([], 1), "Pupusa", 50, Some(true)).1
  }

  /** The two rows of that catalogue. */
  const PromotionRows: seq<ProductRow> := [ProductRow(1, "Pupusa", Maiz, 50, true), ProductRow(2, "Pupusa", Arroz, 50, true)]

  /** Those rows keep one price and one flag per product, under positive ascending ids. */
  lemma PromotionRowsKept(rows: seq<ProductRow>)
    requires rows == PromotionRows
    ensures IdsAscending(rows) && SameTerms(rows)
    ensures forall k :: 0 <= k < |rows| ==> rows[k].id > 0
  {
  }

  /** Those rows are listed as one promotion product under id 1 at 0.50. */
  lemma PromotionRowsListed(rows: seq<ProductRow>) returns (i: int)
    requires rows == PromotionRows
    ensures 0 <= i < |Listing(rows)|
    ensures Listing(rows)[i].id == 1 && Listing(rows)[i].price == 50 && Listing(rows)[i].hasSmallVersion
  {
    ListingCoversNames(rows);
    i :| 0 <= i < |Listing(rows)| && Listing(rows)[i].name == rows[0].name;
    PromotionEntry(rows, i);
  }

  lemma PromotionEntry(rows: seq<ProductRow>, i: int)
    requires rows == PromotionRows
    requires 0 <= i < |Listing(rows)| && Listing(rows)[i].name == rows[0].name
    ensures Listing(rows)[i].id == 1 && Listing(rows)[i].price == 50 && Listing(rows)[i].hasSmallVersion
  {
    ListingEntry(rows, i);
    var e := Listing(rows)[i];
    var k :| 0 <= k < |rows| && rows[k].name == e.name && rows[k].id == e.id;
    var p :| 0 <= p < |rows| && rows[p].name == e.name && rows[p].price == e.price;
    assert e.id <= rows[0].id;
  }

  /**
   * An instance: three units of that product preview at 1.50 as written,
   * while the server stores 1.00 and the corrected preview shows 1.00.
   */
  lemma AsWrittenPreviewExample()
    ensures var c := PromotionCatalogue();
      var item := DraftItem(Some(1), Some(Maiz), Some(3));
      && ItemSubtotalAsWritten(Listing(c.rows), item) == 150
      && ItemSubtotal(Listing(c.rows), item) == 100
      && PriceItem(PriceLookup(c.rows), SentItem(item)).Success?
      && PriceItem(PriceLookup(c.rows), SentItem(item)).value.lineTotal == 100
  {
    var c := PromotionCatalogue();
    assert c.rows == PromotionRows;
    PromotionRowsKept(c.rows);
    var i := PromotionRowsListed(c.rows);
    AsWrittenPreviewMissesPromotion(c, i, Some(Maiz));
  }

  /** A draft of one line previews at that line's subtotal, both as written and corrected. */
  lemma SingleLinePreview(products: seq<ListedProduct>, item: DraftItem)
    ensures PreviewTotalAsWritten(products, [item], false, None) == ItemSubtotalAsWritten(products, item)
    ensures PreviewTotal(products, [item], false, None) == ItemSubtotal(products, item)
  {
    PreviewTotalAsWrittenAppend(products, [], item, false, None);
    PreviewTotalAppend(products, [], item, false, None);
    assert [] + [item] == [item];
  }

  /**
   * The same instance as a whole draft, a pickup of that one line: the total
   * shown as written is 1.50, the corrected total 1.00.
   */
  lemma AsWrittenTotalExample()
    ensures var listing := Listing(PromotionCatalogue().rows);
      var item := DraftItem(Some(1), Some(Maiz), Some(3));
      && PreviewTotalAsWritten(listing, [item], false, None) == 150
      && PreviewTotal(listing, [item], false, None) == 100
  {
    AsWrittenPreviewExample();
    SingleLinePreview(Listing(PromotionCatalogue().rows), DraftItem(Some(1), Some(Maiz), Some(3)));
  }

  // ---------------------------------------------------------------------
  // Editing a stored order
  // ---------------------------------------------------------------------

  /** The draft line a stored line is loaded as. */
  function Drafted(line: PricedLine): DraftItem
  {
    DraftItem(Some(line.productId), line.masa, Some(line.quantity))
  }

  /**
   * `loadOrderForEdit`: the stored lines become the list, and the delivery
   * cost field is filled only when the stored cost is positive.
   */
  function Loaded(d: Draft, order: OrderRow, lines: seq<PricedLine>): Draft
  {
    d.(items := seq(|lines|, k requires 0 <= k < |lines| => Drafted(lines[k])),
       isDelivery := order.isDelivery,
       deliveryCost := if order.deliveryCost > 0 then Some(order.deliveryCost) else None)
  }

  /**
   * A stored delivery with no charge loads with an empty cost field, so it
   * cannot be saved again until a cost is typed in; any other stored order
   * with lines passes the form's checks as loaded.
   */
  lemma LoadedOrderCheck(d: Draft, order: OrderRow, lines: seq<PricedLine>, selectedDate: Option<string>)
    requires lines != []
    ensures order.isDelivery && order.deliveryCost <= 0 ==>
      Check(Loaded(d, order, lines), selectedDate) == Failure(InvalidDeliveryCost)
    ensures !(order.isDelivery && order.deliveryCost <= 0) ==> Check(Loaded(d, order, lines), selectedDate).Success?
  {
    assert |Loaded(d, order, lines).items| == |lines|;
  }

  /**
   * Resubmitting a loaded order unchanged, while the stored prices and flags
   * are as they were, prices every line exactly as it is stored.
   */
  lemma ResubmitKeepsLines(lookup: map<int, PriceInfo>, d: Draft, order: OrderRow, lines: seq<PricedLine>)
    requires forall k :: 0 <= k < |lines| ==>
      && lines[k].productId != 0 && lines[k].quantity > 0 && lines[k].masa != Some("")
      && lines[k].productId in lookup
      && lines[k].unitPrice == lookup[lines[k].productId].price
      && lines[k].lineTotal == LineTotal(lines[k].quantity, lines[k].unitPrice, lookup[lines[k].productId].isSmall)
    ensures PriceItems(lookup, Sent(Loaded(d, order, lines).items)) == Success(lines)
  {
    var sent := Sent(Loaded(d, order, lines).items);
    forall k | 0 <= k < |sent| ensures PriceItem(lookup, sent[k]) == Success(lines[k]) {
      assert sent[k] == RequestItem(Some(lines[k].productId), Some(lines[k].quantity), lines[k].masa);
      assert StoredMasa(lines[k].masa) == lines[k].masa;
    }
    PriceItemsAllPass(lookup, sent);
    PriceItemsSuccess(lookup, sent);
    assert PriceItems(lookup, sent).value == lines;
  }

  // ---------------------------------------------------------------------
  // The form
  // ---------------------------------------------------------------------

  /** The state hooks of the order form. */
  class OrderForm {
    var items: seq<DraftItem>
    var newItem: DraftItem
    var isDelivery: bool
    var deliveryCost: Option<int>
    var error: Option<DraftError>

    function State(): Draft
      reads this
    {
      Draft(items, newItem, isDelivery, deliveryCost, error)
    }

    /** Every line in the list is ready. */
    ghost predicate Valid()
      reads this
    {
      forall k :: 0 <= k < |items| ==> Ready(items[k])
    }

    /** The initial state: no lines, the blank line, a pickup with an empty cost. */
    constructor ()
      ensures Valid()
      ensures State() == Draft([], Blank, false, None, None)
    {
      items, newItem, isDelivery, deliveryCost, error := [], Blank, false, None, None;
    }

    /** The product select. */
    method SelectProduct(productId: Option<int>)
      modifies this
      ensures State() == old(State()).(newItem := old(newItem).(productId := productId))
    {
      newItem := newItem.(productId := productId);
    }

    /** The masa select. */
    method SelectMasa(masa: string)
      modifies this
      ensures State() == old(State()).(newItem := old(newItem).(masa := Some(masa)))
    {
      newItem := newItem.(masa := Some(masa));
    }

    /** The quantity input. */
    method SetQuantity(quantity: Option<int>)
      modifies this
      ensures State() == old(State()).(newItem := old(newItem).(quantity := quantity))
    {
      newItem := newItem.(quantity := quantity);
    }

    /** The delivery checkbox. */
    method SetDelivery(checked: bool)
      modifies this
      ensures State() == old(State()).(isDelivery := checked)
    {
      isDelivery := checked;
    }

    /** The delivery cost input. */
    method SetDeliveryCost(cost: Option<int>)
      modifies this
      ensures State() == old(State()).(deliveryCost := cost)
    {
      deliveryCost := cost;
    }

    /** `loadOrderForEdit`, given the order and its lines as the server answers them. */
    method LoadForEdit(order: OrderRow, lines: seq<PricedLine>)
      modifies this
      ensures State() == Loaded(old(State()), order, lines)
      ensures (forall k :: 0 <= k < |lines| ==> lines[k].quantity > 0) ==> Valid()
    {
      items := seq(|lines|, k requires 0 <= k < |lines| => Drafted(lines[k]));
      isDelivery := order.isDelivery;
      deliveryCost := if order.deliveryCost > 0 then Some(order.deliveryCost) else None;
    }

    /** `addItem`. */
    method AddItem()
      requires Valid()
      modifies this
      ensures Valid()
      ensures State() == Add(old(State()))
    {
      AddOutcome(State());
      if newItem.productId.None? {
        error := Some(ProductMissing);
        return;
      }
      if newItem.quantity.None? || newItem.quantity.value <= 0 {
        error := Some(QuantityNotPositive);
        return;
      }
      items := items + [newItem];
      newItem := Blank;
      error := None;
    }

    /** `removeItem`. */
    method RemoveItem(index: int)
      requires Valid()
      modifies this
      ensures Valid()
      ensures State() == old(State()).(items := Remove(old(items), index))
    {
      RemoveDropsIndex(items, index);
      items := Remove(items, index);
    }

    /**
     * `handleSubmit` up to the request: a failed check shows its message and
     * sends nothing; otherwise the message is cleared and the body is returned
     * for sending.
     */
    method Submit(selectedDate: Option<string>) returns (r: Result<OrderRequest, DraftError>)
      modifies this
      ensures r == Check(old(State()), selectedDate)
      ensures r.Failure? ==> State() == old(State()).(error := Some(r.error))
      ensures r.Success? ==> State() == old(State()).(error := None)
    {
      if items == [] {
        error := Some(ListEmpty);
        return Failure(ListEmpty);
      }
      if isDelivery && (deliveryCost.None? || deliveryCost.value < 0) {
        error := Some(InvalidDeliveryCost);
        return Failure(InvalidDeliveryCost);
      }
      error := None;
      r := Success(OrderRequest(selectedDate, Some(isDelivery), Some(if isDelivery then deliveryCost.value else 0),
                                Some(Sent(items))));
    }
  }
}
