/** The checkout view-model: the user's saved addresses and the one chosen
    for shipping, the cart being bought, the order totals, and placing the
    order. Each `viewModelScope.launch` body is one atomic step whose
    repository calls see the endpoints passed in. */
module CheckoutViewModel {
  import opened Common
  import opened Collections
  import opened AddressModel
  import opened CartItemModel
  import Pricing
  import AddressRepository
  import CartRepository

  /** `{ it.id == addressId }`. */
  function HasId(addressId: string): Address -> bool {
    (a: Address) => a.id == addressId
  }

  /** `{ it.id != addressId }`. */
  function HasOtherId(addressId: string): Address -> bool {
    (a: Address) => a.id != addressId
  }

  /** The selection names one of the listed addresses, or nothing. */
  predicate SelectionValid(s: CheckoutState) {
    s.selectedAddress.None? || s.selectedAddress.value in s.addresses
  }

  /** `removeAll { it.id == addressId }` on a copy of the list: every address
      with that id is gone, every other one is kept, in its order. */
  function RemoveById(addresses: seq<Address>, addressId: string): (r: seq<Address>)
    ensures forall a :: a in r ==> a in addresses && a.id != addressId
    ensures forall a :: a in addresses && a.id != addressId ==> a in r
    ensures IsSubsequence(r, addresses)
    ensures |r| <= |addresses|
    ensures forall a :: multiset(r)[a] == if a.id != addressId then multiset(addresses)[a] else 0
  {
    var r := Filter(addresses, HasOtherId(addressId));
    forall a
      ensures multiset(r)[a] == if a.id != addressId then multiset(addresses)[a] else 0
    {
      FilterCounts(addresses, HasOtherId(addressId), a);
    }
    forall a | a in addresses && a.id != addressId
      ensures a in r
    {
      FilterComplete(addresses, HasOtherId(addressId), a);
    }
    FilterIsSubsequence(addresses, HasOtherId(addressId));
    r
  }

  /** The selection after a delete: when the deleted id was the selected
      one, the first remaining address (or none); otherwise unchanged. */
  function SelectionAfterDelete(selected: Option<Address>, addressId: string, remaining: seq<Address>): (r: Option<Address>)
    ensures selected.Some? && selected.value.id == addressId ==> r == FirstOrNull(remaining)
    ensures !(selected.Some? && selected.value.id == addressId) ==> r == selected
  {
    if selected.Some? && selected.value.id == addressId then FirstOrNull(remaining) else selected
  }

  /** A delete keeps the selection pointing into the list. */
  lemma DeleteKeepsSelectionValid(s: CheckoutState, addressId: string)
    requires SelectionValid(s)
    ensures var remaining := RemoveById(s.addresses, addressId);
            SelectionValid(s.(addresses := remaining,
                              selectedAddress := SelectionAfterDelete(s.selectedAddress, addressId, remaining)))
  {
  }

  /** After a delete, the selected address never has the deleted id. */
  lemma DeletedIsNeverSelected(s: CheckoutState, addressId: string)
    requires SelectionValid(s)
    ensures var remaining := RemoveById(s.addresses, addressId);
            var selected := SelectionAfterDelete(s.selectedAddress, addressId, remaining);
            selected.Some? ==> selected.value.id != addressId
  {
  }

  /** The list after an update whose id is listed: the first address with
      that id replaced by what the server returned, every other position
      unchanged. */
  function ReplaceFirstById(addresses: seq<Address>, addressId: string, updated: Address): (r: seq<Address>)
    requires IndexOfFirst(addresses, HasId(addressId)) != -1
    ensures |r| == |addresses|
    ensures var k := IndexOfFirst(addresses, HasId(addressId));
            && addresses[k].id == addressId
            && r[k] == updated
            && (forall j :: 0 <= j < |r| && j != k ==> r[j] == addresses[j])
  {
    addresses[IndexOfFirst(addresses, HasId(addressId)) := updated]
  }

  /** An update keeps the selection pointing into the list: a selected
      address with the updated id becomes the server's copy, any other stays
      listed. */
  lemma UpdateKeepsSelectionValid(s: CheckoutState, addressId: string, updated: Address)
    requires SelectionValid(s)
    requires IndexOfFirst(s.addresses, HasId(addressId)) != -1
    ensures var selected := if s.selectedAddress.Some? && s.selectedAddress.value.id == addressId
                            then Some(updated) else s.selectedAddress;
            SelectionValid(s.(addresses := ReplaceFirstById(s.addresses, addressId, updated), selectedAddress := selected))
  {
    var k := IndexOfFirst(s.addresses, HasId(addressId));
    var r := ReplaceFirstById(s.addresses, addressId, updated);
    if s.selectedAddress.Some? {
      var a := s.selectedAddress.value;
      if a.id == addressId {
        assert r[k] == updated;
      } else {
        var j :| 0 <= j < |s.addresses| && s.addresses[j] == a;
        assert j != k;
        assert r[j] == a;
      }
    }
  }

  /** Why placing the order fails, if it does: no selected address first,
      then an empty cart. */
  function PlaceOrderError(s: CheckoutState): (e: Option<string>)
    ensures e.None? <==> s.selectedAddress.Some? && s.cartItems != []
    ensures s.selectedAddress.None? ==> e == Some("Please select a shipping address")
    ensures s.selectedAddress.Some? && s.cartItems == [] ==> e == Some("Your cart is empty")
  {
    if s.selectedAddress.None? then Some("Please select a shipping address")
    else if s.cartItems == [] then Some("Your cart is empty")
    else None
  }

  /** The order-summary threshold: orders strictly above this ship free. */
  const FreeShippingAbove: real := 50.0
  const ShippingFee: real := 5.99
  const TaxRate: real := 0.08

  /** `calculateSubtotal`: Σ discounted price × count over the cart lines. */
  function Subtotal(items: seq<CartItem>, parse: Pricing.DecimalParser): (subtotal: real)
    ensures (forall i :: 0 <= i < |items| ==> Pricing.WellPriced(items[i], parse)) ==>
              0.0 <= subtotal <= Pricing.GrossTotal(items)
    ensures items == [] ==> subtotal == 0.0
  {
    assert (forall i :: 0 <= i < |items| ==> Pricing.WellPriced(items[i], parse)) ==>
             0.0 <= Pricing.CartTotal(items, parse) <= Pricing.GrossTotal(items) by {
      if forall i :: 0 <= i < |items| ==> Pricing.WellPriced(items[i], parse) {
        Pricing.CartTotalBounds(items, parse);
      }
    }
    Pricing.CartTotal(items, parse)
  }

  /** `calculateShipping`: free strictly above 50, otherwise the flat fee. */
  function Shipping(items: seq<CartItem>, parse: Pricing.DecimalParser): (r: real)
    ensures r == 0.0 <==> Subtotal(items, parse) > FreeShippingAbove
    ensures r != 0.0 ==> r == ShippingFee
  {
    if Subtotal(items, parse) > FreeShippingAbove then 0.0 else ShippingFee
  }

  /** `calculateTax`: 8% of the subtotal. */
  function Tax(items: seq<CartItem>, parse: Pricing.DecimalParser): (r: real)
    ensures 0.0 <= Subtotal(items, parse) ==> 0.0 <= r <= Subtotal(items, parse)
  {
    Subtotal(items, parse) * TaxRate
  }

  /** `calculateTotal`: subtotal, shipping and tax. */
  function Total(items: seq<CartItem>, parse: Pricing.DecimalParser): (r: real)
    ensures r == Subtotal(items, parse) * 1.08 + Shipping(items, parse)
  {
    Subtotal(items, parse) + Shipping(items, parse) + Tax(items, parse)
  }

  /** For well-priced lines the total is at least the subtotal and at most
      the undiscounted value plus tax and the shipping fee. */
  lemma TotalBounds(items: seq<CartItem>, parse: Pricing.DecimalParser)
    requires forall i :: 0 <= i < |items| ==> Pricing.WellPriced(items[i], parse)
    ensures Subtotal(items, parse) <= Total(items, parse)
    ensures Total(items, parse) <= Pricing.GrossTotal(items) * 1.08 + ShippingFee
  {
    Pricing.CartTotalBounds(items, parse);
  }

  /** An empty cart still costs the shipping fee. */
  lemma EmptyCartTotal(parse: Pricing.DecimalParser)
    ensures Total([], parse) == ShippingFee
  {
  }

  /** The checkout screen's state holder. */
  class CheckoutViewModel {
    /** The signed-in user, fixed when the view-model is created. */
    const userId: string
    var state: CheckoutState

    /** `init` runs `loadUserAddresses()` and `loadCartItems()`. */
    constructor(userId: string, addressApi: AddressRepository.AddressApi, token: Option<string>, cartApi: CartRepository.CartApi)
      ensures this.userId == userId
      ensures var listed := AddressRepository.GetAddressesByUserId(userId, addressApi);
              state == InitialCheckoutState.(addresses := listed, selectedAddress := FirstOrNull(listed),
                                             cartItems := CartRepository.GetCartItems(token, cartApi))
      ensures SelectionValid(state)
    {
      this.userId := userId;
      var listed := AddressRepository.GetAddressesByUserId(userId, addressApi);
      state := InitialCheckoutState.(addresses := listed, selectedAddress := FirstOrNull(listed),
                                     cartItems := CartRepository.GetCartItems(token, cartApi));
    }

    /** `loadUserAddresses`: the user's addresses, the first one selected.
        Fetching by user never fails, so no error is ever shown. */
    method LoadUserAddresses(api: AddressRepository.AddressApi)
      modifies this
      ensures var listed := AddressRepository.GetAddressesByUserId(userId, api);
              state == old(state).(addresses := listed, selectedAddress := FirstOrNull(listed),
                                   isLoading := false, error := None)
      ensures SelectionValid(state)
    {
      state := state.(isLoading := true, error := None);
      var listed := AddressRepository.GetAddressesByUserId(userId, api);
      state := state.(addresses := listed, selectedAddress := FirstOrNull(listed), isLoading := false);
    }

    /** `deleteAddress`: on success every address with that id leaves the
        list and a deleted selection moves to the first remaining address;
        on failure the list stays and the repository's message is shown. */
    method DeleteAddress(addressId: string, api: AddressRepository.AddressApi)
      modifies this
      ensures match AddressRepository.DeleteAddress(addressId, api)
              case Ok(_) =>
                var remaining := RemoveById(old(state).addresses, addressId);
                state == old(state).(addresses := remaining,
                                     selectedAddress := SelectionAfterDelete(old(state).selectedAddress, addressId, remaining),
                                     isLoading := false, error := None)
              case Err(message) => state == old(state).(isLoading := false, error := Some(message))
      ensures SelectionValid(old(state)) ==> SelectionValid(state)
      ensures forall a :: a in state.addresses ==> a in old(state).addresses
    {
      state := state.(isLoading := true, error := None);
      match AddressRepository.DeleteAddress(addressId, api)
      case Ok(_) =>
        var remaining := RemoveById(state.addresses, addressId);
        state := state.(addresses := remaining, isLoading := false,
                        selectedAddress := SelectionAfterDelete(state.selectedAddress, addressId, remaining));
        if SelectionValid(old(state)) {
          DeleteKeepsSelectionValid(old(state), addressId);
        }
      case Err(message) =>
        state := state.(isLoading := false, error := Some(message));
    }

    /** `updateAddress`: on success the first listed address with that id is
        replaced by the server's copy (and so is the selection, if it had that
        id); when no listed address has the id, the list is reloaded instead.
        On failure the repository's message is shown. */
    method UpdateAddress(addressId: string, updated: Address, api: AddressRepository.AddressApi)
      modifies this
      ensures match AddressRepository.UpdateAddress(addressId, updated, api)
              case Ok(saved) =>
                if IndexOfFirst(old(state).addresses, HasId(addressId)) != -1 then
                  state == old(state).(addresses := ReplaceFirstById(old(state).addresses, addressId, saved),
                                       selectedAddress := if old(state).selectedAddress.Some? && old(state).selectedAddress.value.id == addressId
                                                          then Some(saved) else old(state).selectedAddress,
                                       isLoading := false, error := None)
                else
                  var listed := AddressRepository.GetAddressesByUserId(userId, api);
                  state == old(state).(addresses := listed, selectedAddress := FirstOrNull(listed),
                                       isLoading := false, error := None)
              case Err(message) => state == old(state).(isLoading := false, error := Some(message))
      ensures SelectionValid(old(state)) ==> SelectionValid(state)
    {
      state := state.(isLoading := true, error := None);
      match AddressRepository.UpdateAddress(addressId, updated, api)
      case Ok(saved) =>
        var index := IndexOfFirst(state.addresses, HasId(addressId));
        if index != -1 {
          if SelectionValid(old(state)) {
            UpdateKeepsSelectionValid(state, addressId, saved);
          }
          state := state.(addresses := ReplaceFirstById(state.addresses, addressId, saved), isLoading := false,
                          selectedAddress := if state.selectedAddress.Some? && state.selectedAddress.value.id == addressId
                                             then Some(saved) else state.selectedAddress);
        } else {
          LoadUserAddresses(api);
        }
      case Err(message) =>
        state := state.(isLoading := false, error := Some(message));
    }

    /** `saveAddress`: the address is sent stamped with this user's id; the
        stored copy the server returns is appended and selected. On failure
        the repository's message is shown. Returns what was sent. */
    method SaveAddress(address: Address, api: AddressRepository.AddressApi) returns (sent: Address)
      modifies this
      ensures sent == address.(userId := userId)
      ensures match AddressRepository.CreateAddress(sent, api)
              case Ok(saved) =>
                state == old(state).(addresses := old(state).addresses + [saved], selectedAddress := Some(saved),
                                     isLoading := false, error := None)
              case Err(message) => state == old(state).(isLoading := false, error := Some(message))
      ensures SelectionValid(old(state)) ==> SelectionValid(state)
    {
      state := state.(isLoading := true, error := None);
      sent := address.(userId := userId);
      match AddressRepository.CreateAddress(sent, api)
      case Ok(saved) =>
        state := state.(addresses := state.addresses + [saved], isLoading := false, selectedAddress := Some(saved));
      case Err(message) =>
        state := state.(isLoading := false, error := Some(message));
    }

    /** `loadCartItems`: the cart as the cart repository fetches it; nothing
        else changes, and no error is ever shown for it. */
    method LoadCartItems(token: Option<string>, api: CartRepository.CartApi)
      modifies this
      ensures state == old(state).(cartItems := CartRepository.GetCartItems(token, api))
    {
      state := state.(cartItems := CartRepository.GetCartItems(token, api));
    }

    /** `selectAddress`. */
    method SelectAddress(address: Address)
      modifies this
      ensures state == old(state).(selectedAddress := Some(address))
      ensures address in state.addresses && SelectionValid(old(state)) ==> SelectionValid(state)
    {
      state := state.(selectedAddress := Some(address));
    }

    /** `clearError`. */
    method ClearError()
      modifies this
      ensures state == old(state).(error := None)
    {
      state := state.(error := None);
    }

    /** `placeOrder`: marks the order placed when an address is selected and
        the cart is not empty; otherwise shows why not. No order service is
        called. */
    method PlaceOrder()
      modifies this
      ensures PlaceOrderError(old(state)).None? ==> state == old(state).(isOrderPlaced := true, isLoading := false, error := None)
      ensures PlaceOrderError(old(state)).Some? ==> state == old(state).(isLoading := false, error := PlaceOrderError(old(state)))
    {
      state := state.(isLoading := true, error := None);
      if state.selectedAddress.None? {
        state := state.(isLoading := false, error := Some("Please select a shipping address"));
      } else if state.cartItems == [] {
        state := state.(isLoading := false, error := Some("Your cart is empty"));
      } else {
        state := state.(isOrderPlaced := true, isLoading := false);
      }
    }

    /** `calculateSubtotal`. */
    function CalculateSubtotal(parse: Pricing.DecimalParser): (subtotal: real)
      reads this
      ensures subtotal == Subtotal(state.cartItems, parse)
      ensures (forall i :: 0 <= i < |state.cartItems| ==> Pricing.WellPriced(state.cartItems[i], parse)) ==>
                0.0 <= subtotal <= Pricing.GrossTotal(state.cartItems)
    {
      Subtotal(state.cartItems, parse)
    }

    /** `calculateTotal`. */
    function CalculateTotal(parse: Pricing.DecimalParser): (total: real)
      reads this
      ensures total == Total(state.cartItems, parse)
      ensures (forall i :: 0 <= i < |state.cartItems| ==> Pricing.WellPriced(state.cartItems[i], parse)) ==>
                CalculateSubtotal(parse) <= total <= Pricing.GrossTotal(state.cartItems) * 1.08 + ShippingFee
    {
      var total := Total(state.cartItems, parse);
      assert (forall i :: 0 <= i < |state.cartItems| ==> Pricing.WellPriced(state.cartItems[i], parse)) ==>
               CalculateSubtotal(parse) <= total <= Pricing.GrossTotal(state.cartItems) * 1.08 + ShippingFee by {
        if forall i :: 0 <= i < |state.cartItems| ==> Pricing.WellPriced(state.cartItems[i], parse) {
          TotalBounds(state.cartItems, parse);
        }
      }
      total
    }

    /** `getTotalItems`. */
    function GetTotalItems(): (n: int)
      reads this
      ensures n == Collections.SumOfInt(state.cartItems, Quantity)
      ensures (forall i :: 0 <= i < |state.cartItems| ==> 0 <= state.cartItems[i].count) ==> 0 <= n
    {
      Pricing.ItemCountOfQuantities(state.cartItems);
      Pricing.ItemCount(state.cartItems)
    }
  }
}
