/**
 * The pricing rule of an order line (`calculateLineTotal`) and the order
 * total built from line totals and the delivery surcharge. Money is held in
 * integer cents, so the "3x1$" bundle costs exactly 100.
 */
module Pricing {
  import opened Common

  /** Price of one complete "3x1$" bundle: one currency unit, in cents. */
  const BundlePrice: int := 100

  /** Units in one bundle. */
  const BundleSize: nat := 3

  /** What the product lookup yields: the unit price in cents and the promotion flag (`is_small`). */
  datatype PriceInfo = PriceInfo(price: int, isSmall: bool)

  /**
   * The charge for one line: plain lines cost quantity times price; promotion
   * lines cost one bundle price per complete group of three plus the full
   * price of each remaining unit.
   */
  function LineTotal(quantity: nat, unitPrice: int, isSmall: bool): int
  {
    if isSmall then (quantity / BundleSize) * BundlePrice + (quantity % BundleSize) * unitPrice
    else quantity * unitPrice
  }

  /** Reference for plain lines: one unit price per unit. */
  function Repeated(quantity: nat, unitPrice: int): int
  {
    if quantity == 0 then 0 else unitPrice + Repeated(quantity - 1, unitPrice)
  }

  /** Reference for promotion lines: take bundles of three while they last, then single units. */
  function Bundled(quantity: nat, unitPrice: int): int
  {
    if quantity < BundleSize then quantity * unitPrice
    else BundlePrice + Bundled(quantity - BundleSize, unitPrice)
  }

  /** The closed formula agrees with charging unit by unit and bundle by bundle. */
  lemma {:induction false} LineTotalMatchesReference(quantity: nat, unitPrice: int)
    ensures LineTotal(quantity, unitPrice, false) == Repeated(quantity, unitPrice)
    ensures LineTotal(quantity, unitPrice, true) == Bundled(quantity, unitPrice)
  {
    if quantity > 0 {
      LineTotalMatchesReference(quantity - 1, unitPrice);
      assert quantity * unitPrice == unitPrice + (quantity - 1) * unitPrice;
    }
    if quantity >= BundleSize {
      LineTotalMatchesReference(quantity - BundleSize, unitPrice);
      assert quantity / 3 == (quantity - 3) / 3 + 1 && quantity % 3 == (quantity - 3) % 3;
    }
  }

  /** Three more units on a promotion line cost exactly one more bundle. */
  lemma PromotionStep(quantity: nat, unitPrice: int)
    ensures LineTotal(quantity + BundleSize, unitPrice, true) == LineTotal(quantity, unitPrice, true) + BundlePrice
  {
    LineTotalMatchesReference(quantity + BundleSize, unitPrice);
    LineTotalMatchesReference(quantity, unitPrice);
  }

  /** When three units cost at least one bundle price, the promotion never makes a line dearer. */
  lemma {:induction false} PromotionNeverDearer(quantity: nat, unitPrice: int)
    requires BundleSize * unitPrice >= BundlePrice
    ensures LineTotal(quantity, unitPrice, true) <= LineTotal(quantity, unitPrice, false)
  {
    LineTotalMatchesReference(quantity, unitPrice);
    if quantity >= BundleSize {
      PromotionNeverDearer(quantity - BundleSize, unitPrice);
      LineTotalMatchesReference(quantity - BundleSize, unitPrice);
      assert quantity * unitPrice == 3 * unitPrice + (quantity - 3) * unitPrice;
    }
  }

  /**
   * Below a third of the bundle price per unit, every line with a complete
   * group of three costs more with the promotion than without it.
   */
  lemma {:induction false} PromotionDearerWhenCheap(quantity: nat, unitPrice: int)
    requires BundleSize * unitPrice < BundlePrice
    requires quantity >= BundleSize
    ensures LineTotal(quantity, unitPrice, true) > LineTotal(quantity, unitPrice, false)
  {
    LineTotalMatchesReference(quantity, unitPrice);
    LineTotalMatchesReference(quantity - BundleSize, unitPrice);
    assert quantity * unitPrice == 3 * unitPrice + (quantity - 3) * unitPrice;
    if quantity - BundleSize >= BundleSize {
      PromotionDearerWhenCheap(quantity - BundleSize, unitPrice);
    }
  }

  /** The worked figures of the pricing rule, in cents. */
  lemma PricingExamples()
    ensures LineTotal(1, 250, false) == 250
    ensures LineTotal(3, 250, true) == 100
    ensures LineTotal(4, 250, true) == 350
    ensures LineTotal(5, 100, true) == 300
  {
  }

  /** The delivery cost that is stored and added: the cost given (0 if none) for a delivery, else 0. */
  function DeliveryCharge(isDelivery: bool, deliveryCost: Option<int>): int
  {
    if isDelivery then deliveryCost.GetOr(0) else 0
  }

  function Sum(xs: seq<int>): int
  {
    if xs == [] then 0 else Sum(xs[..|xs| - 1]) + xs[|xs| - 1]
  }

  lemma {:induction false} SumAppend(xs: seq<int>, ys: seq<int>)
    ensures Sum(xs + ys) == Sum(xs) + Sum(ys)
    decreases |ys|
  {
    if ys == [] {
      assert xs + ys == xs;
    } else {
      assert (xs + ys)[..|xs + ys| - 1] == xs + ys[..|ys| - 1];
      SumAppend(xs, ys[..|ys| - 1]);
    }
  }

  /** An order total: the line totals plus the surcharge, which counts only for deliveries. */
  function OrderTotal(lineTotals: seq<int>, isDelivery: bool, deliveryCost: Option<int>): int
  {
    Sum(lineTotals) + DeliveryCharge(isDelivery, deliveryCost)
  }

  /** A pickup order ignores any delivery cost it was sent. */
  lemma PickupIgnoresDeliveryCost(lineTotals: seq<int>, deliveryCost: Option<int>)
    ensures OrderTotal(lineTotals, false, deliveryCost) == Sum(lineTotals)
    ensures OrderTotal(lineTotals, false, deliveryCost) == OrderTotal(lineTotals, false, None)
  {
  }
}
