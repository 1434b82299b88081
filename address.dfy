/** The address record and the checkout screen's state snapshot. */
module AddressModel {
  import opened Common
  import opened CartItemModel

  /** A saved address. `id` is assigned by the server; a new address is sent
      with an empty one. */
  datatype Address = Address(
    id: string,
    userId: string,
    fullName: string,
    email: string,
    confirmEmail: string,
    addressType: string,
    addressLine1: string,
    addressLine2: string,
    city: string,
    state: string,
    postalCode: string,
    country: string,
    phoneNumber: string,
    createdAt: string,
    updatedAt: string)

  /** The envelope `GET /v1/address` answers with. */
  datatype ApiResponse<T> = ApiResponse(success: bool, data: Option<T>, message: Option<string>, status: int)

  /** Everything the checkout screen renders. `selectedAddress` is a
      client-side choice; it is not stored on the server. */
  datatype CheckoutState = CheckoutState(
    addresses: seq<Address>,
    selectedAddress: Option<Address>,
    cartItems: seq<CartItem>,
    isLoading: bool,
    error: Option<string>,
    isOrderPlaced: bool,
    showPaymentScreen: bool)

  /** `CheckoutState()` with every default. */
  const InitialCheckoutState := CheckoutState([], None, [], false, None, false, false)
}
