/** The wishlist view-model: the saved items, a loading flag and an error
    message. Adds and removes only reload the list when the server accepts
    them; a refusal is silent. */
module WishlistViewModel {
  import opened Common
  import opened Text
  import opened Http
  import opened WishlistItemModel

  /** The wishlist endpoints. */
  datatype WishlistApi = WishlistApi(
    getWishlist: () -> Call<WishlistResponse>,
    addToWishlist: AddToWishlistRequest -> Call<WishlistItem>,
    removeFromWishlist: string -> Call<()>)

  /** What a load yields: the items of a 2xx answer (none when it has no
      body), or the message shown for a refusal or an exception. */
  function LoadOutcome(call: Call<WishlistResponse>): (r: Result<seq<WishlistItem>, string>)
    ensures r.Ok? <==> Succeeded(call)
    ensures r.Ok? ==> r.value == (if call.response.body.Some? then call.response.body.value.results else [])
    ensures call.Answered? && r.Err? ==> r.error == "Failed to load wishlist: " + IntToString(call.response.code)
    ensures call.Threw? ==> r.error == "Error loading wishlist: " + Interpolate(call.exception.message)
  {
    match call
    case Threw(e) => Err("Error loading wishlist: " + Interpolate(e.message))
    case Answered(response) =>
      if response.IsSuccessful() then
        Ok(if response.body.Some? then response.body.value.results else [])
      else Err("Failed to load wishlist: " + IntToString(response.code))
  }

  /** A refused load and a failed one are told apart by their first word. */
  lemma LoadMessagesDistinct(a: Call<WishlistResponse>, b: Call<WishlistResponse>)
    requires a.Answered? && b.Threw?
    requires LoadOutcome(a).Err?
    ensures LoadOutcome(a).error != LoadOutcome(b).error
  {
    assert LoadOutcome(a).error[0] == 'F';
    assert LoadOutcome(b).error[0] == 'E';
  }

  /** The wishlist screen's state holder. */
  class WishlistViewModel {
    var wishlistItems: seq<WishlistItem>
    var loading: bool
    var error: Option<string>

    constructor()
      ensures wishlistItems == [] && !loading && error.None?
    {
      wishlistItems := [];
      loading := false;
      error := None;
    }

    /** `loadWishlist`: on success the list is replaced and the error
        cleared; on failure the old list stays and the message is shown. */
    method LoadWishlist(api: WishlistApi)
      modifies this
      ensures match LoadOutcome(api.getWishlist())
              case Ok(items) => wishlistItems == items && error.None?
              case Err(message) => wishlistItems == old(wishlistItems) && error == Some(message)
      ensures !loading
    {
      loading := true;
      error := None;
      match LoadOutcome(api.getWishlist()) {
        case Ok(items) =>
          wishlistItems := items;
        case Err(message) =>
          error := Some(message);
      }
      loading := false;
    }

    /** `addToWishlist`: sends the item with the product id as `product`;
        reloads when the server accepts it, and otherwise changes nothing. */
    method AddToWishlist(title: string, productId: string, mrp: real, discount: string, brand: string,
                         image: string, api: WishlistApi) returns (sent: AddToWishlistRequest)
      modifies this
      ensures sent == AddToWishlistRequest(title, productId, mrp, Some(discount), brand, Some(image))
      ensures !Succeeded(api.addToWishlist(sent)) ==>
                wishlistItems == old(wishlistItems) && loading == old(loading) && error == old(error)
      ensures Succeeded(api.addToWishlist(sent)) ==>
                !loading &&
                (match LoadOutcome(api.getWishlist())
                 case Ok(items) => wishlistItems == items && error.None?
                 case Err(message) => wishlistItems == old(wishlistItems) && error == Some(message))
    {
      sent := AddToWishlistRequest(title, productId, mrp, Some(discount), brand, Some(image));
      if Succeeded(api.addToWishlist(sent)) {
        LoadWishlist(api);
      }
    }

    /** `removeFromWishlist`: reloads when the server accepts the delete,
        and otherwise changes nothing. */
    method RemoveFromWishlist(itemId: string, api: WishlistApi)
      modifies this
      ensures !Succeeded(api.removeFromWishlist(itemId)) ==>
                wishlistItems == old(wishlistItems) && loading == old(loading) && error == old(error)
      ensures Succeeded(api.removeFromWishlist(itemId)) ==>
                !loading &&
                (match LoadOutcome(api.getWishlist())
                 case Ok(items) => wishlistItems == items && error.None?
                 case Err(message) => wishlistItems == old(wishlistItems) && error == Some(message))
    {
      if Succeeded(api.removeFromWishlist(itemId)) {
        LoadWishlist(api);
      }
    }

    /** `clearError`. */
    method ClearError()
      modifies this
      ensures error.None? && wishlistItems == old(wishlistItems) && loading == old(loading)
    {
      error := None;
    }
  }
}
