/** The cart screen's per-line controls: which view-model call each button
    issues, which brand label and which picture a line shows. */
module CartScreen {
  import opened Common
  import opened Text
  import opened Collections
  import opened CartItemModel
  import ImageUtils
  import CartViewModel

  /** The screen's `onUpdateQuantity` callback: a positive quantity becomes
      an update, anything else a delete. */
  function RouteQuantity(cartItemId: string, newQuantity: int): (call: CartViewModel.CartCall)
    ensures newQuantity > 0 <==> call == CartViewModel.UpdateCall(cartItemId, newQuantity)
    ensures newQuantity <= 0 <==> call == CartViewModel.DeleteCall(cartItemId)
  {
    if newQuantity > 0 then CartViewModel.UpdateCall(cartItemId, newQuantity)
    else CartViewModel.DeleteCall(cartItemId)
  }

  /** The minus button: it acts only for a line with an id and a count above
      one, and then asks for one less. */
  function DecreaseClick(item: CartItem): (call: Option<CartViewModel.CartCall>)
    ensures call.Some? <==> SafeId(item) != "" && item.count > 1
    ensures call.Some? ==> call.value == CartViewModel.UpdateCall(SafeId(item), item.count - 1)
  {
    if SafeId(item) != "" && item.count > 1 then Some(RouteQuantity(SafeId(item), item.count - 1)) else None
  }

  /** The plus button: it acts for any line with an id and asks for one
      more. */
  function IncreaseClick(item: CartItem): (call: Option<CartViewModel.CartCall>)
    ensures call.Some? <==> SafeId(item) != ""
    ensures call.Some? && item.count >= 0 ==> call.value == CartViewModel.UpdateCall(SafeId(item), item.count + 1)
    ensures call.Some? && item.count < 0 ==> call.value == CartViewModel.DeleteCall(SafeId(item))
  {
    if SafeId(item) != "" then Some(RouteQuantity(SafeId(item), item.count + 1)) else None
  }

  /** The remove dialog's confirm button: a delete for a line with an id. */
  function RemoveConfirm(item: CartItem): (call: Option<CartViewModel.CartCall>)
    ensures call.Some? <==> SafeId(item) != ""
    ensures call.Some? ==> call.value == CartViewModel.DeleteCall(SafeId(item))
  {
    if SafeId(item) != "" then Some(CartViewModel.DeleteCall(SafeId(item))) else None
  }

  /** The minus button never deletes a line: a line at one must be removed
      through the remove dialog. */
  lemma DecreaseNeverDeletes(item: CartItem)
    ensures DecreaseClick(item).Some? ==> DecreaseClick(item).value.UpdateCall? && DecreaseClick(item).value.count >= 1
    ensures item.count <= 1 ==> DecreaseClick(item).None?
  {
  }

  /** The screen's minus button and the view-model's `decreaseQuantity` agree
      on a line the minus button accepts, when that line is the first with
      its id. */
  lemma DecreaseClickAgreesWithViewModel(items: seq<CartItem>, k: int)
    requires 0 <= k < |items|
    requires forall j :: 0 <= j < k ==> SafeId(items[j]) != SafeId(items[k])
    requires DecreaseClick(items[k]).Some?
    ensures CartViewModel.DecreaseCall(items, SafeId(items[k])) == DecreaseClick(items[k])
  {
    FirstWithId(items, k);
  }

  /** The plus button and the view-model's `increaseQuantity` agree on the
      first line with a given id whenever its count is not negative. */
  lemma IncreaseClickAgreesWithViewModel(items: seq<CartItem>, k: int)
    requires 0 <= k < |items|
    requires forall j :: 0 <= j < k ==> SafeId(items[j]) != SafeId(items[k])
    requires SafeId(items[k]) != "" && items[k].count >= 0
    ensures CartViewModel.IncreaseCall(items, SafeId(items[k])) == IncreaseClick(items[k])
  {
    FirstWithId(items, k);
  }

  /** `find { it.safeId == id }` picks the first line with that id. */
  lemma FirstWithId(items: seq<CartItem>, k: int)
    requires 0 <= k < |items|
    requires forall j :: 0 <= j < k ==> SafeId(items[j]) != SafeId(items[k])
    ensures Find(items, CartViewModel.HasSafeId(SafeId(items[k]))) == Some(items[k])
  {
    assert CartViewModel.HasSafeId(SafeId(items[k]))(items[k]);
  }

  /** `getBrandDisplayName`: the brand, unless it is empty or one of the
      placeholder brands (any containing `default`), which show as `N/A`.
      The exact `default_brand_id` case is covered by the `contains` test
      after it. */
  function BrandDisplayName(brand: string): (shown: string)
    ensures Contains(brand, "default") || brand == "" ==> shown == "N/A"
    ensures !Contains(brand, "default") && brand != "" ==> shown == brand
  {
    if brand == "default_brand_id" then
      assert OccursAt(brand, "default", 0);
      "N/A"
    else if Contains(brand, "default") then "N/A"
    else if brand != "" then brand
    else "N/A"
  }

  /** The label is never empty and never names a placeholder brand. */
  lemma BrandLabelIsClean(brand: string)
    ensures BrandDisplayName(brand) != "" && !Contains(BrandDisplayName(brand), "default")
  {
    if Contains(brand, "default") || brand == "" {
      NaHasNoDefault();
    }
  }

  /** Applying the label rule to a label changes nothing. */
  lemma BrandDisplayNameIdempotent(brand: string)
    ensures BrandDisplayName(BrandDisplayName(brand)) == BrandDisplayName(brand)
  {
    BrandLabelIsClean(brand);
  }

  lemma NaHasNoDefault()
    ensures !Contains("N/A", "default")
  {
  }

  /** The picture a line shows: the product's first image through the
      environment's image base, or none when the product has no (or an
      empty) first image. */
  function CardImageUrl(item: CartItem): (url: Option<string>)
    ensures url.None? <==> IsNullOrEmpty(ProductImage(item))
    ensures url.Some? ==> IsPrefix(ImageUtils.ImageBaseUrl(), url.value)
                          && url.value[|ImageUtils.ImageBaseUrl()|..] == item.product.images[0].src
  {
    if !IsNullOrEmpty(ProductImage(item)) then ImageUtils.SafeProductImageUrl(ProductImage(item)) else None
  }
}
