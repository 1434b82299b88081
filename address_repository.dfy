/** The address repository: each remote call and how its failures become
    the messages the checkout screen shows. */
module AddressRepository {
  import opened Common
  import opened Text
  import opened Http
  import opened AddressModel

  /** The address endpoints. The ones that return their body directly raise
      an exception (an `HttpStatus` one for a non-2xx status) instead of
      answering. */
  datatype AddressApi = AddressApi(
    getAddresses: () -> Direct<ApiResponse<seq<Address>>>,
    createAddress: Address -> Direct<Address>,
    getAddressesByUserId: string -> Direct<seq<Address>>,
    updateAddress: (string, Address) -> Direct<Address>,
    deleteAddress: string -> Call<()>)

  const TimeoutMessage: string := "Request timeout. Please try again."
  const ConnectMessage: string := "Cannot connect to server. Check your internet connection."
  const FetchPrefix: string := "Failed to fetch addresses: "
  const DeletePrefix: string := "Failed to delete address: "

  /** The message shared by create, update and delete for a timeout or an
      unreachable server; `None` for every other exception. */
  function TransportMessage(kind: ExceptionKind): (m: Option<string>)
    ensures m == Some(TimeoutMessage) <==> kind.SocketTimeout?
    ensures m == Some(ConnectMessage) <==> kind.ConnectFailure? || kind.UnknownHost?
    ensures m.None? <==> kind.HttpStatus? || kind.OtherException?
  {
    match kind
    case SocketTimeout => Some(TimeoutMessage)
    case ConnectFailure => Some(ConnectMessage)
    case UnknownHost => Some(ConnectMessage)
    case _ => None
  }

  /** `getAddresses`: the list when the envelope says success and carries
      data. Every failure, whether the server's or the transport's, is
      reported under the prefix `Failed to fetch addresses: `, followed by the
      server's message (or `Failed to fetch addresses` when it sent none), or
      by the exception's message (`null` when it had none). */
  function GetAddresses(api: AddressApi): (r: Result<seq<Address>, string>)
    ensures r.Ok? <==> api.getAddresses().Returned? && api.getAddresses().value.success
                       && api.getAddresses().value.data.Some?
    ensures r.Ok? ==> r.value == api.getAddresses().value.data.value
    ensures r.Err? ==> IsPrefix(FetchPrefix, r.error)
    ensures r.Err? && api.getAddresses().Returned? ==>
              r.error == FetchPrefix + api.getAddresses().value.message.GetOr("Failed to fetch addresses")
    ensures api.getAddresses().Raised? ==>
              r.error == FetchPrefix + Interpolate(api.getAddresses().exception.message)
  {
    match api.getAddresses()
    case Raised(e) => Err(FetchPrefix + Interpolate(e.message))
    case Returned(response) =>
      if response.success && response.data.Some? then Ok(response.data.value)
      else Err(FetchPrefix + response.message.GetOr("Failed to fetch addresses"))
  }

  /** The message `createAddress` throws for a failed call. */
  function CreateFailureMessage(e: Exception): (m: string)
    ensures e.kind == HttpStatus(400) ==> m == "Invalid address data"
    ensures e.kind == HttpStatus(409) ==> m == "Address already exists"
    ensures e.kind.HttpStatus? && e.kind.code != 400 && e.kind.code != 409 ==>
              m == "Server error: HTTP " + IntToString(e.kind.code)
    ensures TransportMessage(e.kind).Some? ==> m == TransportMessage(e.kind).value
    ensures e.kind.OtherException? ==> m == "Failed to create address: " + e.message.GetOr("Unknown error")
  {
    match e.kind
    case HttpStatus(code) =>
      if code == 400 then "Invalid address data"
      else if code == 409 then "Address already exists"
      else "Server error: HTTP " + IntToString(code)
    case OtherException => "Failed to create address: " + e.message.GetOr("Unknown error")
    case _ => TransportMessage(e.kind).value
  }

  /** `createAddress`: the stored address as the server returns it (with its
      new id), or the failure message for the exception raised. The address
      is sent as given. */
  function CreateAddress(address: Address, api: AddressApi): (r: Result<Address, string>)
    ensures r.Ok? <==> api.createAddress(address).Returned?
    ensures r.Ok? ==> r.value == api.createAddress(address).value
    ensures r.Err? ==> r.error == CreateFailureMessage(api.createAddress(address).exception)
  {
    match api.createAddress(address)
    case Returned(saved) => Ok(saved)
    case Raised(e) => Err(CreateFailureMessage(e))
  }

  /** `getAddressesByUserId`: the user's addresses, and an empty list for any
      failure, so that it never fails. */
  function GetAddressesByUserId(userId: string, api: AddressApi): (r: seq<Address>)
    ensures api.getAddressesByUserId(userId).Returned? ==> r == api.getAddressesByUserId(userId).value
    ensures api.getAddressesByUserId(userId).Raised? ==> r == []
  {
    match api.getAddressesByUserId(userId)
    case Returned(addresses) => addresses
    case Raised(_) => []
  }

  /** The message `updateAddress` throws for a non-2xx status. */
  function UpdateStatusMessage(code: int): (m: string)
    ensures code == 404 ==> m == "Address not found. It may have been deleted."
    ensures code == 400 ==> m == "Invalid address data provided"
    ensures code == 403 ==> m == "You don't have permission to update this address"
    ensures code !in {400, 403, 404} ==> m == "Server error: HTTP " + IntToString(code)
  {
    if code == 404 then "Address not found. It may have been deleted."
    else if code == 400 then "Invalid address data provided"
    else if code == 403 then "You don't have permission to update this address"
    else "Server error: HTTP " + IntToString(code)
  }

  /** The message `updateAddress` throws for a failed call. */
  function UpdateFailureMessage(e: Exception): (m: string)
    ensures e.kind.HttpStatus? ==> m == UpdateStatusMessage(e.kind.code)
    ensures TransportMessage(e.kind).Some? ==> m == TransportMessage(e.kind).value
    ensures e.kind.OtherException? ==> m == "Failed to update address: " + e.message.GetOr("Unknown error")
  {
    match e.kind
    case HttpStatus(code) => UpdateStatusMessage(code)
    case OtherException => "Failed to update address: " + e.message.GetOr("Unknown error")
    case _ => TransportMessage(e.kind).value
  }

  /** `updateAddress`: the address as the server stored it, or the failure
      message for the exception raised. */
  function UpdateAddress(addressId: string, address: Address, api: AddressApi): (r: Result<Address, string>)
    ensures r.Ok? <==> api.updateAddress(addressId, address).Returned?
    ensures r.Ok? ==> r.value == api.updateAddress(addressId, address).value
    ensures r.Err? ==> r.error == UpdateFailureMessage(api.updateAddress(addressId, address).exception)
  {
    match api.updateAddress(addressId, address)
    case Returned(saved) => Ok(saved)
    case Raised(e) => Err(UpdateFailureMessage(e))
  }

  /** The message `deleteAddress` throws inside its `try` for a non-2xx
      answer. */
  function DeleteStatusMessage(code: int): (m: string)
    ensures code == 404 ==> m == "Address not found. It may have been already deleted."
    ensures code == 403 ==> m == "You don't have permission to delete this address"
    ensures code == 500 ==> m == "Server error. Please try again later."
    ensures code !in {403, 404, 500} ==> m == DeletePrefix + "HTTP " + IntToString(code)
  {
    if code == 404 then "Address not found. It may have been already deleted."
    else if code == 403 then "You don't have permission to delete this address"
    else if code == 500 then "Server error. Please try again later."
    else DeletePrefix + "HTTP " + IntToString(code)
  }

  /** `deleteAddress`: succeeds on a 2xx answer. The exception thrown for any
      other status is caught by the same `try` and wrapped once more under
      `Failed to delete address: `; a timeout or an unreachable server gets
      the shared transport message instead. */
  function DeleteAddress(addressId: string, api: AddressApi): (r: Result<(), string>)
    ensures r.Ok? <==> Succeeded(api.deleteAddress(addressId))
    ensures api.deleteAddress(addressId).Answered? && r.Err? ==>
              r.error == DeletePrefix + DeleteStatusMessage(api.deleteAddress(addressId).response.code)
    ensures api.deleteAddress(addressId).Threw? ==>
              var e := api.deleteAddress(addressId).exception;
              r.error == if TransportMessage(e.kind).Some? then TransportMessage(e.kind).value
                         else DeletePrefix + e.message.GetOr("Unknown error")
  {
    match api.deleteAddress(addressId)
    case Answered(response) =>
      if response.IsSuccessful() then Ok(())
      else Err(DeletePrefix + DeleteStatusMessage(response.code))
    case Threw(e) =>
      match TransportMessage(e.kind)
      case Some(m) => Err(m)
      case None => Err(DeletePrefix + e.message.GetOr("Unknown error"))
  }

  /** A refused delete is always reported under the delete prefix; for a
      status other than 403, 404 and 500 the prefix appears twice. */
  lemma DeleteRefusalIsPrefixed(addressId: string, api: AddressApi)
    requires api.deleteAddress(addressId).Answered? && !Succeeded(api.deleteAddress(addressId))
    ensures IsPrefix(DeletePrefix, DeleteAddress(addressId, api).error)
    ensures api.deleteAddress(addressId).response.code !in {403, 404, 500} ==>
              DeleteAddress(addressId, api).error
                == DeletePrefix + DeletePrefix + "HTTP " + IntToString(api.deleteAddress(addressId).response.code)
  {
    var code := api.deleteAddress(addressId).response.code;
    if code !in {403, 404, 500} {
      assert DeletePrefix + DeleteStatusMessage(code) == DeletePrefix + DeletePrefix + "HTTP " + IntToString(code);
    }
  }

  /** The generic server-error message names the status, so two different
      statuses never give the same create or update message. */
  lemma ServerErrorNamesStatus(a: int, b: int)
    requires IntMin <= a <= IntMax && IntMin <= b <= IntMax
    requires a !in {400, 403, 404, 409} && b !in {400, 403, 404, 409}
    requires CreateFailureMessage(Exception(HttpStatus(a), None)) == CreateFailureMessage(Exception(HttpStatus(b), None))
             || UpdateFailureMessage(Exception(HttpStatus(a), None)) == UpdateFailureMessage(Exception(HttpStatus(b), None))
    ensures a == b
  {
    var p := "Server error: HTTP ";
    assert (p + IntToString(a))[|p|..] == IntToString(a);
    assert (p + IntToString(b))[|p|..] == IntToString(b);
    IntToStringInjective(a, b);
  }
}
