/** The catalogue product and its derived values. */
module ProductModel {
  import opened Common
  import Pricing

  datatype Category = Category(id: string, name: string)

  datatype Brand = Brand(id: string, name: string)

  datatype Image = Image(id: string, src: string)

  /** A product as the product endpoints return it (the variant, product-info
      and spec lists, the description and the creation dates are not read by
      the modelled code and are not carried). */
  datatype ApiProduct = ApiProduct(
    id: string,
    title: string,
    mrp: real,
    category: Category,
    inStock: bool,
    sku: string,
    discount: Option<string>,
    brand: Option<Brand>,
    images: seq<Image>)

  /** `getAllImageUrls()`: the `src` of every image, in order. */
  function AllImageUrls(p: ApiProduct): (urls: seq<string>)
    ensures |urls| == |p.images|
    ensures forall i :: 0 <= i < |urls| ==> urls[i] == p.images[i].src
  {
    seq(|p.images|, i requires 0 <= i < |p.images| => p.images[i].src)
  }

  /** `getStockQuantity()`: 1 when in stock, otherwise 0. */
  function StockQuantity(p: ApiProduct): (q: int)
    ensures 0 <= q <= 1
    ensures q == 1 <==> p.inStock
  {
    if p.inStock then 1 else 0
  }

  /** `discountedPrice`: the price after the parsed discount, the discount
      counting as 0 when it is null or does not parse. */
  function DiscountedPrice(p: ApiProduct, parse: Pricing.DecimalParser): (r: real)
    ensures p.discount.None? ==> r == p.mrp
    ensures p.discount.Some? && parse(p.discount.value).None? ==> r == p.mrp
    ensures p.discount.Some? && parse(p.discount.value) == Some(0.0) ==> r == p.mrp
    ensures p.discount.Some? && parse(p.discount.value).Some? ==>
              var d := parse(p.discount.value).value;
              && (0.0 <= p.mrp && 0.0 <= d <= 100.0 ==> 0.0 <= r <= p.mrp)
              && (0.0 < p.mrp && 100.0 < d ==> r < 0.0)
  {
    Pricing.PriceAfterDiscount(p.mrp, Pricing.DiscountPercent(p.discount, parse))
  }
}
