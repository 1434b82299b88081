/** The discount and cart-total arithmetic shared by the product, cart and
    checkout code. Prices are exact reals: `Double` rounding is not
    modelled. */
module Pricing {
  import opened Common
  import opened CartItemModel
  import Collections

  /** Kotlin's `String.toDoubleOrNull()`, which the model leaves abstract:
      `None` for a string that is not a number. */
  type DecimalParser = string -> Option<real>

  /** The percentage a string-encoded discount stands for: the parsed value,
      or 0 when the discount is null or does not parse. */
  function DiscountPercent(discount: Option<string>, parse: DecimalParser): (d: real)
    ensures discount.None? ==> d == 0.0
    ensures discount.Some? && parse(discount.value).None? ==> d == 0.0
    ensures discount.Some? && parse(discount.value).Some? ==> d == parse(discount.value).value
  {
    match discount
    case None => 0.0
    case Some(s) => parse(s).GetOr(0.0)
  }

  /** `mrp - (mrp * d / 100)`. No clamping: a discount above 100 makes the
      price negative, a negative discount raises it above `mrp`. */
  function PriceAfterDiscount(mrp: real, percent: real): (r: real)
    ensures percent == 0.0 ==> r == mrp
    ensures 0.0 <= mrp && 0.0 <= percent <= 100.0 ==> 0.0 <= r <= mrp
    ensures 0.0 < mrp && 100.0 < percent ==> r < 0.0
    ensures 0.0 < mrp && percent < 0.0 ==> mrp < r
  {
    PriceBounds(mrp, percent);
    mrp - mrp * percent / 100.0
  }

  lemma PriceBounds(mrp: real, percent: real)
    ensures 0.0 <= mrp && 0.0 <= percent <= 100.0 ==> 0.0 <= mrp * percent / 100.0 <= mrp
    ensures 0.0 < mrp && 100.0 < percent ==> mrp < mrp * percent / 100.0
    ensures 0.0 < mrp && percent < 0.0 ==> mrp * percent / 100.0 < 0.0
  {
    if 0.0 <= mrp && 0.0 <= percent <= 100.0 {
      assert mrp * percent <= mrp * 100.0;
    }
    if 0.0 < mrp && 100.0 < percent {
      assert mrp * 100.0 < mrp * percent;
    }
  }

  /** One cart line's contribution: its discounted price times its count. */
  function LineTotal(item: CartItem, parse: DecimalParser): real {
    PriceAfterDiscount(item.mrp, DiscountPercent(Some(item.discount), parse)) * item.count as real
  }

  function LineTotals(parse: DecimalParser): CartItem -> real {
    (item: CartItem) => LineTotal(item, parse)
  }

  /** The undiscounted value of a line. */
  function LineGross(item: CartItem): real {
    item.mrp * item.count as real
  }

  function Count(item: CartItem): int {
    item.count
  }

  /** Σ (mrp − mrp·d/100)·count over the lines. */
  function CartTotal(items: seq<CartItem>, parse: DecimalParser): real {
    Collections.SumOfReal(items, LineTotals(parse))
  }

  /** Σ mrp·count over the lines. */
  function GrossTotal(items: seq<CartItem>): real {
    Collections.SumOfReal(items, LineGross)
  }

  /** Σ count over the lines. */
  function ItemCount(items: seq<CartItem>): int {
    Collections.SumOfInt(items, Count)
  }

  /** A line is priced sensibly: a non-negative price and count, and a
      discount that is missing, unparseable or within [0, 100]. */
  predicate WellPriced(item: CartItem, parse: DecimalParser) {
    && 0.0 <= item.mrp
    && 0 <= item.count
    && 0.0 <= DiscountPercent(Some(item.discount), parse) <= 100.0
  }

  lemma LineTotalBounds(item: CartItem, parse: DecimalParser)
    requires WellPriced(item, parse)
    ensures 0.0 <= LineTotal(item, parse) <= LineGross(item)
  {
    var p := PriceAfterDiscount(item.mrp, DiscountPercent(Some(item.discount), parse));
    var c := item.count as real;
    assert 0.0 <= p <= item.mrp;
    assert p * c <= item.mrp * c;
  }

  /** When every line is well priced, the cart total lies between 0 and the
      undiscounted total. */
  lemma CartTotalBounds(items: seq<CartItem>, parse: DecimalParser)
    requires forall i :: 0 <= i < |items| ==> WellPriced(items[i], parse)
    ensures 0.0 <= CartTotal(items, parse) <= GrossTotal(items)
  {
    forall i | 0 <= i < |items|
      ensures (x => 0.0)(items[i]) <= LineTotals(parse)(items[i]) <= LineGross(items[i])
    {
      LineTotalBounds(items[i], parse);
    }
    Collections.SumOfRealMonotone(items, LineTotals(parse), LineGross);
    Collections.SumOfRealMonotone(items, x => 0.0, LineTotals(parse));
    ZeroSum(items);
  }

  lemma {:induction false} ZeroSum(items: seq<CartItem>)
    ensures Collections.SumOfReal(items, x => 0.0) == 0.0
  {
    if items != [] {
      ZeroSum(items[1..]);
    }
  }

  /** When no line's discount parses, the cart total is the undiscounted
      total. */
  lemma CartTotalWithoutDiscounts(items: seq<CartItem>, parse: DecimalParser)
    requires forall i :: 0 <= i < |items| ==> parse(items[i].discount).None?
    ensures CartTotal(items, parse) == GrossTotal(items)
  {
    Collections.SumOfRealAgree(items, LineTotals(parse), LineGross);
  }

  /** Totals add up over a split of the cart. */
  lemma CartTotalSplit(a: seq<CartItem>, b: seq<CartItem>, parse: DecimalParser)
    ensures CartTotal(a + b, parse) == CartTotal(a, parse) + CartTotal(b, parse)
    ensures ItemCount(a + b) == ItemCount(a) + ItemCount(b)
  {
    Collections.SumOfRealAppend(a, b, LineTotals(parse));
    Collections.SumOfIntAppend(a, b, Count);
  }

  /** With non-negative counts the item count is non-negative, and it is the
      sum of the lines' `quantity`. */
  lemma ItemCountOfQuantities(items: seq<CartItem>)
    ensures ItemCount(items) == Collections.SumOfInt(items, Quantity)
    ensures (forall i :: 0 <= i < |items| ==> 0 <= items[i].count) ==> 0 <= ItemCount(items)
  {
    QuantitySum(items);
    if forall i :: 0 <= i < |items| ==> 0 <= items[i].count {
      Collections.SumOfIntNonNegative(items, Count);
    }
  }

  lemma {:induction false} QuantitySum(items: seq<CartItem>)
    ensures Collections.SumOfInt(items, Count) == Collections.SumOfInt(items, Quantity)
  {
    if items != [] {
      QuantitySum(items[1..]);
    }
  }
}
