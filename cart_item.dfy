/** The cart line as the cart endpoints return it, and its derived
    properties. */
module CartItemModel {
  import opened Common
  import Collections

  /** A Mongo object id, `{"$oid": ...}`. */
  datatype MongoId = MongoId(oid: string)

  datatype CartUser = CartUser(mongoId: Option<MongoId>, id: Option<string>)

  datatype CartProductImage = CartProductImage(src: string)

  /** The reduced product embedded in a cart line. */
  datatype CartProduct = CartProduct(
    mongoId: Option<MongoId>,
    id: Option<string>,
    title: string,
    images: seq<CartProductImage>)

  /** One cart line: a product, its price and discount at the time it was
      added, and how many of it are in the cart (`count`). */
  datatype CartItem = CartItem(
    mongoId: Option<MongoId>,
    id: Option<string>,
    title: string,
    product: CartProduct,
    mrp: real,
    discount: string,
    brand: string,
    count: int,
    user: CartUser,
    version: int)

  /** The paged list `GET /v1/cart` answers with. */
  datatype CartApiResponse = CartApiResponse(
    results: seq<CartItem>,
    page: int,
    limit: string,
    totalPages: Option<int>,
    totalResults: Option<int>)

  /** The product part of an add-to-cart request. */
  datatype CartProductRequest = CartProductRequest(
    id: string,
    title: string,
    mrp: real,
    discount: Option<string>,
    brand: Option<string>)

  datatype AddToCartRequest = AddToCartRequest(product: CartProductRequest, quantity: int)

  datatype UpdateCartRequest = UpdateCartRequest(count: int)

  /** `safeId`: the identifier the screens and the view-model use for a line.
      The Mongo `$oid` wins over `id`; with neither, it is empty. */
  function SafeId(item: CartItem): (r: string)
    ensures item.mongoId.Some? ==> r == item.mongoId.value.oid
    ensures item.mongoId.None? && item.id.Some? ==> r == item.id.value
    ensures item.mongoId.None? && item.id.None? ==> r == ""
  {
    match item.mongoId
    case Some(m) => m.oid
    case None => item.id.GetOr("")
  }

  /** `quantity`, the name the screens read `count` under. */
  function Quantity(item: CartItem): (q: int)
    ensures q == item.count
  {
    item.count
  }

  /** `productImage`: the `src` of the product's first image, if it has one. */
  function ProductImage(item: CartItem): (r: Option<string>)
    ensures r.None? <==> item.product.images == []
    ensures r.Some? ==> r.value == item.product.images[0].src
  {
    match Collections.FirstOrNull(item.product.images)
    case Some(image) => Some(image.src)
    case None => None
  }
}
