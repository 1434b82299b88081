/** The cart view-model: the cart's lines, a loading flag and an error
    message, and the operations the cart screen triggers. Each
    `viewModelScope.launch` body is one atomic step; a reload launched from
    inside one runs after it, once its `finally` has cleared the flag. */
module CartViewModel {
  import opened Common
  import opened Collections
  import opened CartItemModel
  import Pricing
  import ProductModel
  import CartRepository

  const InvalidId: string := "Invalid cart item ID"
  const NotFound: string := "Cart item not found"

  /** The repository call an operation issues. */
  datatype CartCall =
    | AddCall(product: ProductModel.ApiProduct, quantity: int)
    | UpdateCall(cartId: string, count: int)
    | DeleteCall(cartId: string)

  /** `{ it.safeId == cartItemId }`. */
  function HasSafeId(cartItemId: string): CartItem -> bool {
    (item: CartItem) => SafeId(item) == cartItemId
  }

  /** The call `increaseQuantity` issues: set the first line with that id
      to one more than its count; nothing when no line has the id. */
  function IncreaseCall(items: seq<CartItem>, cartItemId: string): (call: Option<CartCall>)
    ensures call.None? <==> forall j :: 0 <= j < |items| ==> SafeId(items[j]) != cartItemId
    ensures call.Some? ==> exists i :: 0 <= i < |items| && SafeId(items[i]) == cartItemId
                                       && (forall j :: 0 <= j < i ==> SafeId(items[j]) != cartItemId)
                                       && call.value == UpdateCall(cartItemId, items[i].count + 1)
  {
    var k := IndexOfFirst(items, HasSafeId(cartItemId));
    if k == -1 then None else Some(UpdateCall(cartItemId, items[k].count + 1))
  }

  /** The call `decreaseQuantity` issues: one less for a line counting more
      than one, a delete for any other; nothing when no line has the id. */
  function DecreaseCall(items: seq<CartItem>, cartItemId: string): (call: Option<CartCall>)
    ensures call.None? <==> forall j :: 0 <= j < |items| ==> SafeId(items[j]) != cartItemId
    ensures call.Some? ==> exists i :: 0 <= i < |items| && SafeId(items[i]) == cartItemId
                                       && (forall j :: 0 <= j < i ==> SafeId(items[j]) != cartItemId)
                                       && call.value == (if items[i].count > 1 then UpdateCall(cartItemId, items[i].count - 1)
                                                         else DeleteCall(cartItemId))
  {
    var k := IndexOfFirst(items, HasSafeId(cartItemId));
    if k == -1 then None
    else if items[k].count > 1 then Some(UpdateCall(cartItemId, items[k].count - 1))
    else Some(DeleteCall(cartItemId))
  }

  /** A decrease never asks the server for a count below one: a line at one
      (or below) is deleted instead. */
  lemma DecreaseNeverBelowOne(items: seq<CartItem>, cartItemId: string)
    ensures DecreaseCall(items, cartItemId).Some? && DecreaseCall(items, cartItemId).value.UpdateCall? ==>
              DecreaseCall(items, cartItemId).value.count >= 1
  {
  }

  /** Increase and decrease act on the same line: when both issue updates,
      their counts differ by exactly two. */
  lemma IncreaseDecreaseSameLine(items: seq<CartItem>, cartItemId: string)
    requires DecreaseCall(items, cartItemId).Some? && DecreaseCall(items, cartItemId).value.UpdateCall?
    ensures IncreaseCall(items, cartItemId).Some?
    ensures IncreaseCall(items, cartItemId).value.count == DecreaseCall(items, cartItemId).value.count + 2
  {
  }

  /** Whether the repository reports success for a call. */
  function Issue(call: CartCall, token: Option<string>, api: CartRepository.CartApi): bool {
    match call
    case AddCall(product, quantity) => CartRepository.AddToCart(token, product, quantity, api)
    case UpdateCall(cartId, count) => CartRepository.UpdateCartItem(token, cartId, count, api)
    case DeleteCall(cartId) => CartRepository.DeleteCartItem(token, cartId, api)
  }

  /** The cart screen's state holder. */
  class CartViewModel {
    var cartItems: seq<CartItem>
    var isLoading: bool
    var errorMessage: Option<string>

    constructor()
      ensures cartItems == [] && !isLoading && errorMessage.None?
    {
      cartItems := [];
      isLoading := false;
      errorMessage := None;
    }

    /** `loadCartItems`: the lines as the repository fetches them, and no
        error (the repository folds every failure into an empty list). */
    method LoadCartItems(token: Option<string>, api: CartRepository.CartApi)
      modifies this
      ensures cartItems == CartRepository.GetCartItems(token, api)
      ensures !isLoading && errorMessage.None?
    {
      isLoading := true;
      errorMessage := None;
      cartItems := CartRepository.GetCartItems(token, api);
      isLoading := false;
    }

    /** The tail of every write: on success the cart is reloaded (which
        clears the error), on failure `failure` is shown and the lines stay. */
    method Settle(ok: bool, failure: string, token: Option<string>, api: CartRepository.CartApi)
      modifies this
      ensures ok ==> cartItems == CartRepository.GetCartItems(token, api) && errorMessage.None?
      ensures !ok ==> cartItems == old(cartItems) && errorMessage == Some(failure)
      ensures !isLoading
    {
      isLoading := false;
      if ok {
        LoadCartItems(token, api);
      } else {
        errorMessage := Some(failure);
      }
    }

    /** `addToCart`: clears the error, asks the repository to add the
        product, then reloads or reports the failure. */
    method AddToCart(product: ProductModel.ApiProduct, quantity: int, token: Option<string>, api: CartRepository.CartApi)
      returns (call: CartCall)
      modifies this
      ensures call == AddCall(product, quantity)
      ensures Issue(call, token, api) ==> cartItems == CartRepository.GetCartItems(token, api) && errorMessage.None?
      ensures !Issue(call, token, api) ==> cartItems == old(cartItems) && errorMessage == Some("Failed to add item to cart")
      ensures !isLoading
    {
      isLoading := true;
      errorMessage := None;
      call := AddCall(product, quantity);
      var ok := CartRepository.AddToCart(token, product, quantity, api);
      Settle(ok, "Failed to add item to cart", token, api);
    }

    /** `increaseQuantity`: an empty id is refused at once; otherwise the
        line with that id is set to one more, or `Cart item not found` is
        shown. */
    method IncreaseQuantity(cartItemId: string, token: Option<string>, api: CartRepository.CartApi)
      returns (call: Option<CartCall>)
      modifies this
      ensures cartItemId == "" ==> call.None? && cartItems == old(cartItems) && isLoading == old(isLoading)
                                   && errorMessage == Some(InvalidId)
      ensures cartItemId != "" ==> call == IncreaseCall(old(cartItems), cartItemId) && !isLoading
      ensures cartItemId != "" && call.None? ==> cartItems == old(cartItems) && errorMessage == Some(NotFound)
      ensures call.Some? && Issue(call.value, token, api) ==>
                cartItems == CartRepository.GetCartItems(token, api) && errorMessage.None?
      ensures call.Some? && !Issue(call.value, token, api) ==>
                cartItems == old(cartItems) && errorMessage == Some("Failed to increase quantity")
    {
      if cartItemId == "" {
        errorMessage := Some(InvalidId);
        return None;
      }
      isLoading := true;
      call := IncreaseCall(cartItems, cartItemId);
      match Find(cartItems, HasSafeId(cartItemId))
      case None =>
        errorMessage := Some(NotFound);
        isLoading := false;
      case Some(item) =>
        var ok := CartRepository.UpdateCartItem(token, cartItemId, item.count + 1, api);
        Settle(ok, "Failed to increase quantity", token, api);
    }

    /** `decreaseQuantity`: like an increase, except that a line counting
        one (or less) is handed to `deleteCartItem`. */
    method DecreaseQuantity(cartItemId: string, token: Option<string>, api: CartRepository.CartApi)
      returns (call: Option<CartCall>)
      modifies this
      ensures cartItemId == "" ==> call.None? && cartItems == old(cartItems) && isLoading == old(isLoading)
                                   && errorMessage == Some(InvalidId)
      ensures cartItemId != "" ==> call == DecreaseCall(old(cartItems), cartItemId) && !isLoading
      ensures cartItemId != "" && call.None? ==> cartItems == old(cartItems) && errorMessage == Some(NotFound)
      ensures call.Some? && Issue(call.value, token, api) ==>
                cartItems == CartRepository.GetCartItems(token, api) && errorMessage.None?
      ensures call.Some? && !Issue(call.value, token, api) ==>
                cartItems == old(cartItems)
                && errorMessage == Some(if call.value.UpdateCall? then "Failed to decrease quantity"
                                        else "Failed to delete item from cart")
    {
      if cartItemId == "" {
        errorMessage := Some(InvalidId);
        return None;
      }
      isLoading := true;
      call := DecreaseCall(cartItems, cartItemId);
      match Find(cartItems, HasSafeId(cartItemId))
      case None =>
        errorMessage := Some(NotFound);
        isLoading := false;
      case Some(item) =>
        if item.count > 1 {
          var ok := CartRepository.UpdateCartItem(token, cartItemId, item.count - 1, api);
          Settle(ok, "Failed to decrease quantity", token, api);
        } else {
          isLoading := false;
          var _ := DeleteCartItem(cartItemId, token, api);
        }
    }

    /** `deleteCartItem`: an empty id is refused at once; otherwise the line
        is deleted and the cart reloaded, or the failure is shown. */
    method DeleteCartItem(cartId: string, token: Option<string>, api: CartRepository.CartApi)
      returns (call: Option<CartCall>)
      modifies this
      ensures cartId == "" ==> call.None? && cartItems == old(cartItems) && isLoading == old(isLoading)
                               && errorMessage == Some(InvalidId)
      ensures cartId != "" ==> call == Some(DeleteCall(cartId)) && !isLoading
      ensures call.Some? && Issue(call.value, token, api) ==>
                cartItems == CartRepository.GetCartItems(token, api) && errorMessage.None?
      ensures call.Some? && !Issue(call.value, token, api) ==>
                cartItems == old(cartItems) && errorMessage == Some("Failed to delete item from cart")
    {
      if cartId == "" {
        errorMessage := Some(InvalidId);
        return None;
      }
      isLoading := true;
      call := Some(DeleteCall(cartId));
      var ok := CartRepository.DeleteCartItem(token, cartId, api);
      Settle(ok, "Failed to delete item from cart", token, api);
    }

    /** `updateCartItem`: an empty id is refused at once; otherwise the count
        is sent as given (no lower bound is checked here) and the cart
        reloaded, or the failure is shown. */
    method UpdateCartItem(cartId: string, newCount: int, token: Option<string>, api: CartRepository.CartApi)
      returns (call: Option<CartCall>)
      modifies this
      ensures cartId == "" ==> call.None? && cartItems == old(cartItems) && isLoading == old(isLoading)
                               && errorMessage == Some(InvalidId)
      ensures cartId != "" ==> call == Some(UpdateCall(cartId, newCount)) && !isLoading
      ensures call.Some? && Issue(call.value, token, api) ==>
                cartItems == CartRepository.GetCartItems(token, api) && errorMessage.None?
      ensures call.Some? && !Issue(call.value, token, api) ==>
                cartItems == old(cartItems) && errorMessage == Some("Failed to update item quantity")
    {
      if cartId == "" {
        errorMessage := Some(InvalidId);
        return None;
      }
      isLoading := true;
      call := Some(UpdateCall(cartId, newCount));
      var ok := CartRepository.UpdateCartItem(token, cartId, newCount, api);
      Settle(ok, "Failed to update item quantity", token, api);
    }

    /** `clearError`. */
    method ClearError()
      modifies this
      ensures errorMessage.None? && cartItems == old(cartItems) && isLoading == old(isLoading)
    {
      errorMessage := None;
    }

    /** `calculateTotal`. */
    function CalculateTotal(parse: Pricing.DecimalParser): (total: real)
      reads this
      ensures total == Pricing.CartTotal(cartItems, parse)
      ensures (forall i :: 0 <= i < |cartItems| ==> Pricing.WellPriced(cartItems[i], parse)) ==>
                0.0 <= total <= Pricing.GrossTotal(cartItems)
    {
      var total := Pricing.CartTotal(cartItems, parse);
      assert (forall i :: 0 <= i < |cartItems| ==> Pricing.WellPriced(cartItems[i], parse)) ==>
               0.0 <= total <= Pricing.GrossTotal(cartItems) by {
        if forall i :: 0 <= i < |cartItems| ==> Pricing.WellPriced(cartItems[i], parse) {
          Pricing.CartTotalBounds(cartItems, parse);
        }
      }
      total
    }

    /** `getTotalItems`. */
    function GetTotalItems(): (n: int)
      reads this
      ensures n == Collections.SumOfInt(cartItems, Quantity)
      ensures (forall i :: 0 <= i < |cartItems| ==> 0 <= cartItems[i].count) ==> 0 <= n
    {
      Pricing.ItemCountOfQuantities(cartItems);
      Pricing.ItemCount(cartItems)
    }
  }
}
