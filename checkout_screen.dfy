/** The checkout screen's rules: the address form's validity, the address
    it builds or edits, when Place Order is enabled, which address is shown
    as selected, and the line price it displays. */
module CheckoutScreen {
  import opened Common
  import opened Text
  import opened AddressModel
  import Pricing
  import CheckoutViewModel

  /** The text fields of the new-address form and of the edit dialog. */
  datatype AddressForm = AddressForm(
    fullName: string,
    email: string,
    confirmEmail: string,
    addressLine1: string,
    addressLine2: string,
    city: string,
    state: string,
    postalCode: string,
    country: string,
    phoneNumber: string)

  /** The form every field of which is empty: how it starts and what a save
      resets it to. */
  const EmptyForm: AddressForm := AddressForm("", "", "", "", "", "", "", "", "", "")

  /** `isEmailValid`: non-blank and containing `@`. */
  predicate EmailValid(f: AddressForm): (ok: bool)
    ensures ok <==> !IsBlank(f.email) && exists i :: 0 <= i < |f.email| && f.email[i] == '@'
  {
    assert Contains(f.email, "@") <==> exists i :: 0 <= i < |f.email| && f.email[i] == '@' by {
      ContainsChar(f.email, '@');
    }
    !IsBlank(f.email) && Contains(f.email, "@")
  }

  /** `isConfirmEmailValid`: non-blank and equal to the email. */
  predicate ConfirmEmailValid(f: AddressForm): (ok: bool)
    ensures ok <==> f.confirmEmail == f.email && !IsBlank(f.email)
  {
    !IsBlank(f.confirmEmail) && f.confirmEmail == f.email
  }

  /** `isFormValid`, shared by the new-address form and the edit dialog.
      The second address line is optional. */
  function FormValid(f: AddressForm): (ok: bool)
    ensures ok ==> Contains(f.email, "@") && f.confirmEmail == f.email
    ensures ok <==> && !IsBlank(f.fullName) && EmailValid(f) && ConfirmEmailValid(f)
                    && !IsBlank(f.addressLine1) && !IsBlank(f.city) && !IsBlank(f.state)
                    && !IsBlank(f.postalCode) && !IsBlank(f.country) && !IsBlank(f.phoneNumber)
  {
    && !IsBlank(f.fullName) && EmailValid(f) && ConfirmEmailValid(f)
    && !IsBlank(f.addressLine1) && !IsBlank(f.city) && !IsBlank(f.state)
    && !IsBlank(f.postalCode) && !IsBlank(f.country) && !IsBlank(f.phoneNumber)
  }

  /** The second address line never decides validity. */
  lemma FormValidIgnoresLine2(f: AddressForm, line2: string)
    ensures FormValid(f.(addressLine2 := line2)) == FormValid(f)
  {
  }

  /** After a save the form is reset, and the reset form cannot be saved
      again. */
  lemma EmptyFormInvalid()
    ensures !FormValid(EmptyForm)
  {
  }

  /** An email without `@` keeps the form disabled whatever else is typed. */
  lemma EmailNeedsAt(f: AddressForm)
    requires forall i :: 0 <= i < |f.email| ==> f.email[i] != '@'
    ensures !FormValid(f)
  {
    ContainsChar(f.email, '@');
  }

  /** The address the Save button builds: the form's fields and the screen's
      user id; no id (the server assigns it), the default `Shipping` type and
      empty timestamps. */
  function NewAddress(f: AddressForm, userId: string): (a: Address)
    ensures a.id == "" && a.userId == userId && a.addressType == "Shipping"
    ensures a.createdAt == "" && a.updatedAt == ""
    ensures a.fullName == f.fullName && a.email == f.email && a.confirmEmail == f.confirmEmail
    ensures a.addressLine1 == f.addressLine1 && a.addressLine2 == f.addressLine2
    ensures a.city == f.city && a.state == f.state && a.postalCode == f.postalCode
    ensures a.country == f.country && a.phoneNumber == f.phoneNumber
  {
    Address("", userId, f.fullName, f.email, f.confirmEmail, "Shipping", f.addressLine1, f.addressLine2,
            f.city, f.state, f.postalCode, f.country, f.phoneNumber, "", "")
  }

  /** The edit dialog's initial fields: the address's own, with the
      confirmation pre-filled from its email. */
  function EditForm(a: Address): (f: AddressForm)
    ensures f.confirmEmail == a.email
  {
    AddressForm(a.fullName, a.email, a.email, a.addressLine1, a.addressLine2, a.city, a.state,
                a.postalCode, a.country, a.phoneNumber)
  }

  /** The address the Update button sends: a copy of the edited address with
      the nine edited fields taken from the dialog. The id, user, stored
      confirmation email, type and timestamps are kept. */
  function EditedAddress(a: Address, f: AddressForm): (r: Address)
    ensures r.id == a.id && r.userId == a.userId && r.confirmEmail == a.confirmEmail
    ensures r.addressType == a.addressType && r.createdAt == a.createdAt && r.updatedAt == a.updatedAt
    ensures r.fullName == f.fullName && r.email == f.email && r.addressLine1 == f.addressLine1
    ensures r.addressLine2 == f.addressLine2 && r.city == f.city && r.state == f.state
    ensures r.postalCode == f.postalCode && r.country == f.country && r.phoneNumber == f.phoneNumber
  {
    a.(fullName := f.fullName, email := f.email, addressLine1 := f.addressLine1, addressLine2 := f.addressLine2,
       city := f.city, state := f.state, postalCode := f.postalCode, country := f.country,
       phoneNumber := f.phoneNumber)
  }

  /** Confirming the edit dialog without typing sends the address back
      unchanged. */
  lemma EditUntouchedIsIdentity(a: Address)
    ensures EditedAddress(a, EditForm(a)) == a
  {
  }

  /** Editing and re-opening the dialog shows what was typed, except that the
      confirmation is re-filled from the email. */
  lemma EditThenReopen(a: Address, f: AddressForm)
    ensures EditForm(EditedAddress(a, f)) == f.(confirmEmail := f.email)
  {
  }

  /** Changing the confirmation field in the edit dialog changes only its
      validity, never the address sent: the stored confirmation is kept. */
  lemma EditIgnoresConfirmation(a: Address, f: AddressForm, confirm: string)
    ensures EditedAddress(a, f.(confirmEmail := confirm)) == EditedAddress(a, f)
  {
  }

  /** A new address saved through the view-model carries the view-model's
      user id whatever user id the form was built with. */
  lemma SavedAddressUser(f: AddressForm, screenUser: string, modelUser: string)
    ensures NewAddress(f, screenUser).(userId := modelUser) == NewAddress(f, modelUser)
  {
  }

  /** Whether the Place Order button is enabled. */
  predicate PlaceOrderEnabled(s: CheckoutState): (enabled: bool)
    ensures enabled <==> !s.isLoading && CheckoutViewModel.PlaceOrderError(s).None?
  {
    s.selectedAddress.Some? && !s.isLoading && s.cartItems != []
  }

  /** An enabled Place Order button never hits one of the view-model's
      order-validation errors. */
  lemma EnabledOrderPasses(s: CheckoutState)
    requires PlaceOrderEnabled(s)
    ensures CheckoutViewModel.PlaceOrderError(s).None?
  {
  }

  /** The button is disabled whenever the view-model would refuse the order
      (and also while anything is loading). */
  lemma RefusedOrderDisabled(s: CheckoutState)
    requires CheckoutViewModel.PlaceOrderError(s).Some?
    ensures !PlaceOrderEnabled(s)
  {
  }

  /** An address card is highlighted when its id is the selected address's
      id. */
  function IsSelected(selected: Option<Address>, a: Address): (b: bool)
    ensures b <==> selected.Some? && selected.value.id == a.id
  {
    match selected
    case None => false
    case Some(s) => s.id == a.id
  }

  /** Ids decide the highlight, so two listed addresses are highlighted
      together exactly when they share an id; with distinct ids at most one
      card is highlighted. */
  lemma AtMostOneHighlighted(selected: Option<Address>, addresses: seq<Address>, i: int, j: int)
    requires 0 <= i < |addresses| && 0 <= j < |addresses|
    requires forall p, q :: 0 <= p < q < |addresses| ==> addresses[p].id != addresses[q].id
    requires IsSelected(selected, addresses[i]) && IsSelected(selected, addresses[j])
    ensures i == j
  {
  }

  /** The selected address itself is always highlighted when it is listed. */
  lemma SelectedIsHighlighted(s: CheckoutState)
    requires s.selectedAddress.Some? && CheckoutViewModel.SelectionValid(s)
    ensures exists k :: 0 <= k < |s.addresses| && IsSelected(s.selectedAddress, s.addresses[k])
  {
    var k :| 0 <= k < |s.addresses| && s.addresses[k] == s.selectedAddress.value;
    assert IsSelected(s.selectedAddress, s.addresses[k]);
  }

  /** The screen's `calculateDiscountedPrice`: the price of one unit after the
      line's discount, the same figure the order subtotal multiplies by the
      count. */
  function DiscountedPrice(mrp: real, discount: string, parse: Pricing.DecimalParser): (r: real)
    ensures parse(discount).None? ==> r == mrp
    ensures parse(discount).Some? && 0.0 <= mrp && 0.0 <= parse(discount).value <= 100.0 ==> 0.0 <= r <= mrp
  {
    Pricing.PriceAfterDiscount(mrp, Pricing.DiscountPercent(Some(discount), parse))
  }

  /** Each line of the order summary contributes its displayed unit price
      times its count. */
  lemma LineUsesDisplayedPrice(item: CartItemModel.CartItem, parse: Pricing.DecimalParser)
    ensures Pricing.LineTotal(item, parse) == DiscountedPrice(item.mrp, item.discount, parse) * item.count as real
  {
  }
}
