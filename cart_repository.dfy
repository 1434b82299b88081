/** The cart repository: each cart call made with the stored access token,
    every failure folded into an empty list or `false`. */
module CartRepository {
  import opened Common
  import opened Http
  import opened CartItemModel
  import ProductModel

  /** The cart endpoints, each taking the `Authorization` header value first. */
  datatype CartApi = CartApi(
    getCartItems: string -> Call<CartApiResponse>,
    addToCart: (string, AddToCartRequest) -> Call<CartItem>,
    updateCartItem: (string, string, UpdateCartRequest) -> Call<CartApiResponse>,
    deleteCartItem: (string, string) -> Call<()>)

  /** The header value built from the token. */
  function Bearer(token: string): (header: string)
    ensures |header| == 7 + |token| && header[..7] == "Bearer " && header[7..] == token
  {
    "Bearer " + token
  }

  /** `getCartItems`: without a stored token, nothing is fetched and the cart
      is empty; otherwise the page's results on a 2xx answer that has a body,
      and an empty list for every other outcome. */
  function GetCartItems(token: Option<string>, api: CartApi): (items: seq<CartItem>)
    ensures token.None? ==> items == []
    ensures token.Some? && Succeeded(api.getCartItems(Bearer(token.value)))
            && api.getCartItems(Bearer(token.value)).response.body.Some? ==>
              items == api.getCartItems(Bearer(token.value)).response.body.value.results
    ensures token.Some? && !Succeeded(api.getCartItems(Bearer(token.value))) ==> items == []
  {
    match token
    case None => []
    case Some(t) =>
      match api.getCartItems(Bearer(t))
      case Threw(_) => []
      case Answered(response) =>
        if response.IsSuccessful() then
          match response.body
          case Some(page) => page.results
          case None => []
        else []
  }

  /** `extractBrandFromProduct`. A product's brand is a `Brand` record, never
      a `String`, so the first branch is never taken: every branded product
      is sent with the fixed text `Extracted Brand`, an unbranded one with
      `N/A`. */
  function ExtractBrand(product: ProductModel.ApiProduct): (brand: string)
    ensures product.brand.Some? ==> brand == "Extracted Brand"
    ensures product.brand.None? ==> brand == "N/A"
  {
    if product.brand.Some? then "Extracted Brand" else "N/A"
  }

  /** The request `addToCart` sends: the product's id, title, price and
      discount, its brand text, and the quantity. */
  function AddRequest(product: ProductModel.ApiProduct, quantity: int): (r: AddToCartRequest)
    ensures r.quantity == quantity
    ensures r.product.id == product.id && r.product.title == product.title
    ensures r.product.mrp == product.mrp && r.product.discount == product.discount
    ensures r.product.brand == Some(ExtractBrand(product))
  {
    AddToCartRequest(CartProductRequest(product.id, product.title, product.mrp, product.discount,
                                        Some(ExtractBrand(product))), quantity)
  }

  /** `addToCart`: true exactly when there is a token and the server answers
      the add request 2xx. */
  function AddToCart(token: Option<string>, product: ProductModel.ApiProduct, quantity: int, api: CartApi): (ok: bool)
    ensures ok <==> token.Some? && Succeeded(api.addToCart(Bearer(token.value), AddRequest(product, quantity)))
  {
    match token
    case None => false
    case Some(t) => Succeeded(api.addToCart(Bearer(t), AddRequest(product, quantity)))
  }

  /** `updateCartItem`: true exactly when there is a token and the server
      answers the request to set the line's count to `newCount` 2xx. */
  function UpdateCartItem(token: Option<string>, cartId: string, newCount: int, api: CartApi): (ok: bool)
    ensures ok <==> token.Some? && Succeeded(api.updateCartItem(Bearer(token.value), cartId, UpdateCartRequest(newCount)))
  {
    match token
    case None => false
    case Some(t) => Succeeded(api.updateCartItem(Bearer(t), cartId, UpdateCartRequest(newCount)))
  }

  /** `deleteCartItem`: true exactly when there is a token and the server
      answers the delete 2xx. */
  function DeleteCartItem(token: Option<string>, cartId: string, api: CartApi): (ok: bool)
    ensures ok <==> token.Some? && Succeeded(api.deleteCartItem(Bearer(token.value), cartId))
  {
    match token
    case None => false
    case Some(t) => Succeeded(api.deleteCartItem(Bearer(t), cartId))
  }

  /** Without a stored token no endpoint is consulted: the outcome is the same
      whatever the server would have answered. */
  lemma NoTokenNoCall(product: ProductModel.ApiProduct, quantity: int, cartId: string, newCount: int, api1: CartApi, api2: CartApi)
    ensures GetCartItems(None, api1) == GetCartItems(None, api2) == []
    ensures AddToCart(None, product, quantity, api1) == AddToCart(None, product, quantity, api2) == false
    ensures UpdateCartItem(None, cartId, newCount, api1) == UpdateCartItem(None, cartId, newCount, api2) == false
    ensures DeleteCartItem(None, cartId, api1) == DeleteCartItem(None, cartId, api2) == false
  {
  }

  /** The brand's name never reaches the server, unless the name happens to be
      the placeholder text itself. */
  lemma BrandNameNotSent(product: ProductModel.ApiProduct, quantity: int)
    requires product.brand.Some? && product.brand.value.name != "Extracted Brand"
    ensures AddRequest(product, quantity).product.brand != Some(product.brand.value.name)
  {
  }

  /** A 2xx answer with no body loads an empty cart, as a failure would. */
  lemma EmptyBodyIsEmptyCart(token: string, api: CartApi)
    requires api.getCartItems(Bearer(token)).Answered?
    requires api.getCartItems(Bearer(token)).response.body.None?
    ensures GetCartItems(Some(token), api) == []
  {
  }
}
