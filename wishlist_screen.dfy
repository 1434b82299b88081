/** The wishlist screen's per-entry rules: the list key, what the remove
    and card clicks act on, the picture, the discount badge and the brand
    label. */
module WishlistScreen {
  import opened Common
  import opened Text
  import opened WishlistItemModel
  import ImageUtils
  import CartScreen

  /** The `LazyColumn` key: the entry's own id, else its product's id, else
      empty. */
  function ListKey(item: WishlistItem): (key: string)
    ensures item.id.Some? ==> key == item.id.value.oid
    ensures item.id.None? && item.product.Some? ==> key == item.product.value.id
    ensures item.id.None? && item.product.None? ==> key == ""
  {
    match item.id
    case Some(w) => w.oid
    case None =>
      match item.product
      case Some(p) => p.id
      case None => ""
  }

  /** The id the remove button passes to `removeFromWishlist`; nothing is
      removed for an entry without its own id. */
  function RemoveTarget(item: WishlistItem): (target: Option<string>)
    ensures target.None? <==> item.id.None?
    ensures target.Some? ==> target.value == item.id.value.oid
  {
    match item.id
    case Some(w) => Some(w.oid)
    case None => None
  }

  /** The entry the remove button deletes is the one the list keys it by. */
  lemma RemoveTargetIsKey(item: WishlistItem)
    requires RemoveTarget(item).Some?
    ensures RemoveTarget(item).value == ListKey(item)
  {
  }

  /** The product id a card click navigates to: only an entry whose product
      still exists is clickable. */
  function ClickTarget(item: WishlistItem): (productId: Option<string>)
    ensures productId.Some? <==> item.product.Some?
    ensures productId.Some? ==> productId.value == item.product.value.id
  {
    match item.product
    case Some(p) => Some(p.id)
    case None => None
  }

  /** An entry without its own id is keyed by the product a click opens. */
  lemma KeyFallsBackToClickTarget(item: WishlistItem)
    requires item.id.None? && ClickTarget(item).Some?
    ensures ListKey(item) == ClickTarget(item).value
  {
  }

  /** The picture: the entry's own image when it has a non-empty one, else
      the product's first image, else none. */
  function ImageChoice(item: WishlistItem): (url: Option<string>)
    ensures !IsNullOrEmpty(item.image) ==> url == Some(ImageUtils.ProductImageUrl(item.image.value))
    ensures IsNullOrEmpty(item.image) && item.product.Some? && item.product.value.images != [] ==>
              url == ImageUtils.SafeProductImageUrl(Some(item.product.value.images[0].src))
    ensures IsNullOrEmpty(item.image) && (item.product.None? || item.product.value.images == []) ==> url.None?
    ensures url.Some? ==> IsPrefix(ImageUtils.ImageBaseUrl(), url.value)
  {
    if !IsNullOrEmpty(item.image) then ImageUtils.SafeProductImageUrl(item.image)
    else if item.product.Some? && item.product.value.images != [] then
      ImageUtils.SafeProductImageUrl(Some(item.product.value.images[0].src))
    else None
  }

  /** The discount badge: shown, with the discount as a whole percentage,
      for a discount that is a well-formed positive `Int`; a decimal, a
      malformed, a zero or a negative discount shows none. */
  function DiscountBadge(discount: string): (percent: Option<int>)
    ensures percent.Some? <==> ParseInt(discount).Some? && ParseInt(discount).value > 0
    ensures percent.Some? ==> percent.value == ParseInt(discount).value
  {
    if discount != "" && discount != "0" then
      var d := LenientInt(discount);
      if d > 0 then Some(d) else None
    else
      assert discount == "0" ==> ParseInt(discount) == Some(0) by {
        if discount == "0" {
          assert AllDigits(discount) && discount[..|discount| - 1] == [];
          assert DigitsValue(discount) == 0;
        }
      }
      None
  }

  /** A discount with a decimal point never gets a badge, so `12.5` shows
      none even though the cart would take 12.5% off. */
  lemma DecimalDiscountHasNoBadge(discount: string, i: int)
    requires 0 <= i < |discount| && discount[i] == '.'
    ensures DiscountBadge(discount).None?
  {
    ParseIntRejects(discount, i);
  }

  /** The badge's text, `"$discountInt% OFF"`. */
  function BadgeText(percent: int): (text: string)
    ensures |text| >= 6 && text[|text| - 5..] == "% OFF"
    ensures IntMin <= percent <= IntMax ==> ParseInt(text[..|text| - 5]) == Some(percent)
  {
    var text := IntToString(percent) + "% OFF";
    assert text[..|text| - 5] == IntToString(percent);
    assert IntMin <= percent <= IntMax ==> ParseInt(text[..|text| - 5]) == Some(percent) by {
      if IntMin <= percent <= IntMax {
        ParseIntToString(percent);
      }
    }
    text
  }

  /** `getWishlistBrandDisplayName`: the cart's brand label, except that
      `Unknown Brand` also shows as `N/A`. */
  function WishlistBrandDisplayName(brand: string): (shown: string)
    ensures brand == "Unknown Brand" ==> shown == "N/A"
    ensures brand != "Unknown Brand" ==> shown == CartScreen.BrandDisplayName(brand)
  {
    if brand == "Unknown Brand" then "N/A"
    else if brand == "default_brand_id" then
      assert OccursAt(brand, "default", 0);
      "N/A"
    else if Contains(brand, "default") then "N/A"
    else if brand != "" then brand
    else "N/A"
  }

  /** The two screens label a brand differently for exactly one brand
      name. */
  lemma BrandLabelsDifferOnlyOnUnknown(brand: string)
    ensures WishlistBrandDisplayName(brand) != CartScreen.BrandDisplayName(brand) <==> brand == "Unknown Brand"
  {
    if brand == "Unknown Brand" {
      var u := brand;
      forall i: nat | i <= |u|
        ensures !OccursAt(u, "default", i)
      {
        if i + 7 <= |u| {
          assert u[i..i + 7][0] == u[i] != 'd';
        }
      }
    }
  }
}
