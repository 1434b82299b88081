# TowDepo storefront core, in Dafny

TowDepo is an Android storefront written in Kotlin. This project models its
core in Dafny and proves properties of the model:

- the token store and the header interceptor that attaches the access token;
- the address, cart and payment repositories, which turn network answers
  into results, lists, flags and messages;
- the cart, checkout, wishlist, payment and authentication view-models,
  each a class whose methods update its state in one atomic step;
- the data helpers of the cart line, the product and the wishlist answer,
  and the image URL builder;
- the rules the cart, checkout, wishlist, products and sign-up screens
  apply before calling a view-model.

A remote endpoint is a function field of an API value (for example
`CartRepository.CartApi`). A call returns an answer with a status and an
optional body, or an exception. Nothing in the model performs I/O.
Kotlin's `toDoubleOrNull`, the date parser with the clock, and the
case-insensitive character comparison are parameters.

Modules, one per source file, plus shared helpers:

| module | models |
|---|---|
| `Common`, `Text`, `Collections`, `Http` | Kotlin options, string rules (`isBlank`, `contains`, `toInt`), list operations and call outcomes |
| `TokenStore` | `security/TokenManager.kt` |
| `AuthInterceptor` | `network/AuthInterceptor.kt` |
| `AddressRepository`, `CartRepository`, `PaymentRepository` | the three repositories |
| `CartItemModel`, `ProductModel`, `WishlistItemModel`, `AuthModel`, `PaymentModel`, `AddressModel` | the data classes |
| `Pricing` | the discount and total arithmetic the view-models and screens share |
| `CartViewModel`, `CheckoutViewModel`, `WishlistViewModel`, `PaymentViewModel`, `AuthViewModel` | the view-models |
| `ImageUtils` | `utils/ImageUtils.kt` with the image base of `di/AppConfig.kt` |
| `CartScreen`, `CheckoutScreen`, `WishlistScreen`, `ProductsScreen`, `SignupScreen` | the decision logic of the five screens |

## Model

| member | source | states |
|---|---|---|
| TokenStore.GetString | app/src/main/java/com/example/towdepo/security/TokenManager.kt:37-38 | a key reads back a string exactly when the store holds a string under it |
| TokenStore.GetBoolean | app/src/main/java/com/example/towdepo/security/TokenManager.kt:58 | a stored flag is read back, anything else gives the default |
| TokenStore.SavedAuthData | app/src/main/java/com/example/towdepo/security/TokenManager.kt:25-35 | after a save each of the seven keys reads back its field of the auth response; the key set grows by exactly those keys and every other entry is kept |
| TokenStore.AccessToken | app/src/main/java/com/example/towdepo/security/TokenManager.kt:37 | a token exactly when a string is stored under the access-token key, and it is that string |
| TokenStore.RefreshToken | app/src/main/java/com/example/towdepo/security/TokenManager.kt:38 | a token exactly when a string is stored under the refresh-token key, and it is that string |
| TokenStore.AccessTokenExpired | app/src/main/java/com/example/towdepo/security/TokenManager.kt:40-50 | fails closed: a missing or unparseable expiry is expired; otherwise expired iff the expiry is strictly before now |
| TokenStore.UserOf | app/src/main/java/com/example/towdepo/security/TokenManager.kt:52-62 | no user iff no stored id; otherwise id, name, email (empty when absent) and verified flag (false when absent) from the store |
| TokenStore.LoggedIn | app/src/main/java/com/example/towdepo/security/TokenManager.kt:68-70 | logged in iff a non-empty access token is stored and it is not expired |
| TokenStore.SaveThenRead | app/src/main/java/com/example/towdepo/security/TokenManager.kt:25-62 | saving then reading returns the saved user (without avatar) and both tokens |
| TokenStore.SaveThenLoggedIn | app/src/main/java/com/example/towdepo/security/TokenManager.kt:40-70 | right after a save, logged in iff the access token is non-empty and its expiry parses to an instant not before now |
| TokenStore.UnparseableExpiryIsLoggedOut | app/src/main/java/com/example/towdepo/security/TokenManager.kt:43-48 | an expiry that does not parse logs the user out |
| TokenStore.ExpiryIsMonotone | app/src/main/java/com/example/towdepo/security/TokenManager.kt:40-50 | once expired, a token stays expired at every later instant |
| TokenStore.ClearedIsLoggedOut | app/src/main/java/com/example/towdepo/security/TokenManager.kt:64-70 | after clearing, no tokens, no user and not logged in |
| TokenStore.TokenManager.constructor | app/src/main/java/com/example/towdepo/security/TokenManager.kt:12-13 | the manager opens the preference file as stored on the device |
| TokenStore.TokenManager.SaveAuthData | app/src/main/java/com/example/towdepo/security/TokenManager.kt:25-35 | the store becomes the saved-auth-data update of its old contents |
| TokenStore.TokenManager.ClearAuthData | app/src/main/java/com/example/towdepo/security/TokenManager.kt:64-66 | the store becomes empty |
| AuthInterceptor.IsAuthExempt | app/src/main/java/com/example/towdepo/network/AuthInterceptor.kt:16-20 | only paths containing auth/ are exempt from the token |
| AuthInterceptor.Intercept | app/src/main/java/com/example/towdepo/network/AuthInterceptor.kt:12-33 | the path is never changed; exempt paths and missing or empty tokens pass unchanged; otherwise the Authorization header is set to Bearer and the token |
| AuthInterceptor.InterceptWith | app/src/main/java/com/example/towdepo/network/AuthInterceptor.kt:22 | the token used is the one the token store reads back |
| AuthInterceptor.InterceptIdempotent | app/src/main/java/com/example/towdepo/network/AuthInterceptor.kt:26-30 | intercepting twice sends the same request as once |
| AuthInterceptor.AuthorizationHeaderShape | app/src/main/java/com/example/towdepo/network/AuthInterceptor.kt:26-30 | the header starts with Bearer and a space and the rest is the token |
| AuthInterceptor.LoginIsExempt | app/src/main/java/com/example/towdepo/network/AuthInterceptor.kt:16-20 | a login request goes out without an added header whatever token is stored |
| AuthInterceptor.RegisterAndRefreshAreExempt | app/src/main/java/com/example/towdepo/network/AuthInterceptor.kt:16-20 | register and refresh-token requests go out without an added header whatever token is stored |
| AuthInterceptor.LogoutCarriesToken | app/src/main/java/com/example/towdepo/network/AuthInterceptor.kt:16-30 | a logout request is not exempt and carries the bearer token |
| AuthInterceptor.ExpiredTokenStillSent | app/src/main/java/com/example/towdepo/network/AuthInterceptor.kt:22-30 | an expired but stored token is still attached: expiry is never checked |
| AddressRepository.TransportMessage | app/src/main/java/com/example/towdepo/repository/AddressRepository.kt:44-45 | the timeout and connection messages are chosen exactly for those exception classes |
| AddressRepository.GetAddresses | app/src/main/java/com/example/towdepo/repository/AddressRepository.kt:16-28 | the list is returned iff the call returns success with data; every failure is prefixed, carrying the server message or the exception message |
| AddressRepository.CreateFailureMessage | app/src/main/java/com/example/towdepo/repository/AddressRepository.kt:38-47 | 400 and 409 get their messages, other statuses name the status, transport failures their messages, anything else the exception message or Unknown error |
| AddressRepository.CreateAddress | app/src/main/java/com/example/towdepo/repository/AddressRepository.kt:30-50 | the saved address iff the call returns; otherwise the failure message of its exception |
| AddressRepository.GetAddressesByUserId | app/src/main/java/com/example/towdepo/repository/AddressRepository.kt:52-69 | the returned list, or empty on any exception |
| AddressRepository.UpdateStatusMessage | app/src/main/java/com/example/towdepo/repository/AddressRepository.kt:83-88 | 404, 400 and 403 get their messages; any other status is named in a server-error message |
| AddressRepository.UpdateFailureMessage | app/src/main/java/com/example/towdepo/repository/AddressRepository.kt:82-92 | an HTTP failure gets its status message, transport failures their messages, anything else the exception message |
| AddressRepository.UpdateAddress | app/src/main/java/com/example/towdepo/repository/AddressRepository.kt:71-96 | the updated address iff the call returns; otherwise the update failure message |
| AddressRepository.DeleteStatusMessage | app/src/main/java/com/example/towdepo/repository/AddressRepository.kt:106-111 | the status messages for 404, 403 and 500, and HTTP with the code for any other status |
| AddressRepository.DeleteAddress | app/src/main/java/com/example/towdepo/repository/AddressRepository.kt:98-125 | success iff a 2xx answer; a refusal is re-wrapped by the outer catch; transport failures get their messages |
| AddressRepository.DeleteRefusalIsPrefixed | app/src/main/java/com/example/towdepo/repository/AddressRepository.kt:106-123 | every refusal carries the delete prefix, and an unlisted status carries it twice |
| AddressRepository.ServerErrorNamesStatus | app/src/main/java/com/example/towdepo/repository/AddressRepository.kt:42 | two unlisted statuses give the same create or update message only when they are equal |
| CartRepository.Bearer | app/src/main/java/com/example/towdepo/repository/CartRepository.kt:16 | the header is Bearer, a space and the token |
| CartRepository.GetCartItems | app/src/main/java/com/example/towdepo/repository/CartRepository.kt:12-40 | no token or any failure gives an empty cart; a 2xx answer gives its results |
| CartRepository.ExtractBrand | app/src/main/java/com/example/towdepo/repository/CartRepository.kt:122-130 | a product with a brand is sent as Extracted Brand, one without as N/A |
| CartRepository.AddRequest | app/src/main/java/com/example/towdepo/repository/CartRepository.kt:48-59 | the request carries the product id, title, price and discount, the extracted brand and the quantity |
| CartRepository.AddToCart | app/src/main/java/com/example/towdepo/repository/CartRepository.kt:42-75 | true iff there is a token and the add call answers 2xx |
| CartRepository.UpdateCartItem | app/src/main/java/com/example/towdepo/repository/CartRepository.kt:77-96 | true iff there is a token and the update call with the new count answers 2xx |
| CartRepository.DeleteCartItem | app/src/main/java/com/example/towdepo/repository/CartRepository.kt:98-116 | true iff there is a token and the delete call answers 2xx |
| CartRepository.NoTokenNoCall | app/src/main/java/com/example/towdepo/repository/CartRepository.kt:15 | without a token no endpoint decides the result: empty cart and every write false |
| CartRepository.BrandNameNotSent | app/src/main/java/com/example/towdepo/repository/CartRepository.kt:125-129 | the product's own brand name is never what is sent |
| CartRepository.EmptyBodyIsEmptyCart | app/src/main/java/com/example/towdepo/repository/CartRepository.kt:19-20 | an answer without a body is an empty cart |
| PaymentRepository.Outcome | app/src/main/java/com/example/towdepo/repository/PaymentRepository.kt:20-38 | success iff a 2xx answer with a body; other answers get the status message, exceptions Network error with their message |
| PaymentRepository.CreateOrderFailure | app/src/main/java/com/example/towdepo/repository/PaymentRepository.kt:28-33 | messages for 404, 401 and 500, and the status code for any other |
| PaymentRepository.VerifyFailure | app/src/main/java/com/example/towdepo/repository/PaymentRepository.kt:59-63 | messages for 404 and 401, and the status code for any other |
| PaymentRepository.CreatePaymentOrder | app/src/main/java/com/example/towdepo/repository/PaymentRepository.kt:15-39 | the order is created with the bearer token and the amount and order id; success, status message or network error as above |
| PaymentRepository.VerifyPayment | app/src/main/java/com/example/towdepo/repository/PaymentRepository.kt:41-69 | the four ids are sent in order with the bearer token; success, status message or network error as above |
| PaymentRepository.EmptySuccessIsFailure | app/src/main/java/com/example/towdepo/repository/PaymentRepository.kt:24-32 | a 200 without a body is reported as a failure naming 200 |
| PaymentRepository.CreateOrderFailureNamesStatus | app/src/main/java/com/example/towdepo/repository/PaymentRepository.kt:32 | different unlisted statuses give different messages |
| PaymentRepository.NetworkErrorIsDistinct | app/src/main/java/com/example/towdepo/repository/PaymentRepository.kt:59-67 | a network error message never looks like a status message |
| CartItemModel.SafeId | app/src/main/java/com/example/towdepo/data/CartItem.kt:54-55 | the Mongo oid, else the id, else empty |
| CartItemModel.Quantity | app/src/main/java/com/example/towdepo/data/CartItem.kt:57-58 | the quantity is the line's count |
| CartItemModel.ProductImage | app/src/main/java/com/example/towdepo/data/CartItem.kt:60-61 | none iff the product has no images, otherwise the first image's src |
| ProductModel.AllImageUrls | app/src/main/java/com/example/towdepo/data/Product.kt:31-33 | the src of every image, in order |
| ProductModel.StockQuantity | app/src/main/java/com/example/towdepo/data/Product.kt:35-37 | 1 iff in stock, otherwise 0 |
| ProductModel.DiscountedPrice | app/src/main/java/com/example/towdepo/data/Product.kt:39-40 | the price for a missing, unparseable or zero discount; between 0 and the price for a discount in [0, 100]; negative above 100 |
| WishlistItemModel.LenientInt | app/src/main/java/com/example/towdepo/data/WishlistItem.kt:30-35 | 0 for a blank or malformed string, otherwise its Int value |
| WishlistItemModel.LimitInt | app/src/main/java/com/example/towdepo/data/WishlistItem.kt:30-35 | always an Int in range: the limit's value when it is a well-formed Int, and 0 for a blank or malformed limit |
| WishlistItemModel.BlankNeverParses | app/src/main/java/com/example/towdepo/data/WishlistItem.kt:32 | a blank string never parses, so the blank test changes nothing |
| WishlistItemModel.LenientIntIsParseOrZero | app/src/main/java/com/example/towdepo/data/WishlistItem.kt:30-35 | the lenient read is the parse, or 0 |
| WishlistItemModel.LimitIntMalformed | app/src/main/java/com/example/towdepo/data/WishlistItem.kt:30-35 | decimal, padded, alphabetic, empty and bare-sign limits read as 0 |
| Pricing.DiscountPercent | app/src/main/java/com/example/towdepo/viewmodels/CheckoutViewModel.kt:187-190 | the parsed discount, or 0 when missing or unparseable |
| Pricing.PriceAfterDiscount | app/src/main/java/com/example/towdepo/viewmodels/CheckoutViewModel.kt:187-190 | the price for no discount; within [0, price] for a discount in [0, 100]; negative above 100; above the price below 0 |
| Pricing.LineTotalBounds | app/src/main/java/com/example/towdepo/viewmodels/CartViewModel.kt:212-218 | a sensibly priced line totals between 0 and its undiscounted value |
| Pricing.CartTotalBounds | app/src/main/java/com/example/towdepo/viewmodels/CartViewModel.kt:212-218 | a sensibly priced cart totals between 0 and its undiscounted total |
| Pricing.CartTotalWithoutDiscounts | app/src/main/java/com/example/towdepo/viewmodels/CartViewModel.kt:212-218 | with no parseable discount the total is the undiscounted total |
| Pricing.CartTotalSplit | app/src/main/java/com/example/towdepo/viewmodels/CartViewModel.kt:212-222 | the total and the item count add up over a split of the cart |
| Pricing.ItemCountOfQuantities | app/src/main/java/com/example/towdepo/viewmodels/CartViewModel.kt:220-222 | the item count is the sum of quantities, and not negative for non-negative counts |
| CheckoutViewModel.RemoveById | app/src/main/java/com/example/towdepo/viewmodels/CheckoutViewModel.kt:62-63 | every address with the id is gone and every other one is kept, in order and with each of its copies |
| CheckoutViewModel.SelectionAfterDelete | app/src/main/java/com/example/towdepo/viewmodels/CheckoutViewModel.kt:69-73 | a deleted selection moves to the first remaining address; any other selection stays |
| CheckoutViewModel.DeleteKeepsSelectionValid | app/src/main/java/com/example/towdepo/viewmodels/CheckoutViewModel.kt:55-85 | a delete keeps the selection among the listed addresses |
| CheckoutViewModel.DeletedIsNeverSelected | app/src/main/java/com/example/towdepo/viewmodels/CheckoutViewModel.kt:62-74 | the deleted id is never selected afterwards |
| CheckoutViewModel.ReplaceFirstById | app/src/main/java/com/example/towdepo/viewmodels/CheckoutViewModel.kt:94-98 | only the first address with the id is replaced; the length and all other entries are kept |
| CheckoutViewModel.UpdateKeepsSelectionValid | app/src/main/java/com/example/towdepo/viewmodels/CheckoutViewModel.kt:97-105 | an in-place update keeps the selection among the listed addresses |
| CheckoutViewModel.PlaceOrderError | app/src/main/java/com/example/towdepo/viewmodels/CheckoutViewModel.kt:206-212 | no error iff an address is selected and the cart is non-empty; the address check comes first |
| CheckoutViewModel.Subtotal | app/src/main/java/com/example/towdepo/viewmodels/CheckoutViewModel.kt:162-167 | an empty cart's subtotal is 0; for sensibly priced lines it lies between 0 and the undiscounted total |
| CheckoutViewModel.Shipping | app/src/main/java/com/example/towdepo/viewmodels/CheckoutViewModel.kt:169-172 | free iff the subtotal is strictly above 50, otherwise 5.99 |
| CheckoutViewModel.Tax | app/src/main/java/com/example/towdepo/viewmodels/CheckoutViewModel.kt:174-177 | between 0 and the subtotal for a non-negative subtotal |
| CheckoutViewModel.Total | app/src/main/java/com/example/towdepo/viewmodels/CheckoutViewModel.kt:179-181 | the subtotal plus 8% tax plus shipping |
| CheckoutViewModel.TotalBounds | app/src/main/java/com/example/towdepo/viewmodels/CheckoutViewModel.kt:162-181 | for sensibly priced lines the total is at least the subtotal and at most the taxed undiscounted total plus the fee |
| CheckoutViewModel.EmptyCartTotal | app/src/main/java/com/example/towdepo/viewmodels/CheckoutViewModel.kt:169-181 | an empty cart costs the shipping fee |
| CheckoutViewModel.CheckoutViewModel.constructor | app/src/main/java/com/example/towdepo/viewmodels/CheckoutViewModel.kt:22-29 | starts with the user's addresses, the first selected, and the cart lines |
| CheckoutViewModel.CheckoutViewModel.LoadUserAddresses | app/src/main/java/com/example/towdepo/viewmodels/CheckoutViewModel.kt:31-53 | the list is replaced by the user's addresses and the first one is selected |
| CheckoutViewModel.CheckoutViewModel.DeleteAddress | app/src/main/java/com/example/towdepo/viewmodels/CheckoutViewModel.kt:55-85 | on success the address is removed and the selection moved; on failure the message is shown; the selection stays valid |
| CheckoutViewModel.CheckoutViewModel.UpdateAddress | app/src/main/java/com/example/towdepo/viewmodels/CheckoutViewModel.kt:87-118 | on success the listed address is replaced (or the list reloaded when absent); on failure the message; the selection stays valid |
| CheckoutViewModel.CheckoutViewModel.SaveAddress | app/src/main/java/com/example/towdepo/viewmodels/CheckoutViewModel.kt:120-146 | the address is sent with the model's user id; a saved one is appended and selected |
| CheckoutViewModel.CheckoutViewModel.LoadCartItems | app/src/main/java/com/example/towdepo/viewmodels/CheckoutViewModel.kt:148-159 | only the cart lines change |
| CheckoutViewModel.CheckoutViewModel.SelectAddress | app/src/main/java/com/example/towdepo/viewmodels/CheckoutViewModel.kt:192-194 | only the selection changes |
| CheckoutViewModel.CheckoutViewModel.ClearError | app/src/main/java/com/example/towdepo/viewmodels/CheckoutViewModel.kt:196-198 | only the error is cleared |
| CheckoutViewModel.CheckoutViewModel.PlaceOrder | app/src/main/java/com/example/towdepo/viewmodels/CheckoutViewModel.kt:200-230 | the order is marked placed iff no validation error; otherwise the error is shown |
| CartViewModel.IncreaseCall | app/src/main/java/com/example/towdepo/viewmodels/CartViewModel.kt:78-112 | no call iff no line has the id; otherwise an update of the first line with the id to one more |
| CartViewModel.DecreaseCall | app/src/main/java/com/example/towdepo/viewmodels/CartViewModel.kt:114-152 | no call iff no line has the id; otherwise, for the first line with the id, one less above one and a delete at one or below |
| CartViewModel.DecreaseNeverBelowOne | app/src/main/java/com/example/towdepo/viewmodels/CartViewModel.kt:114-152 | a decrease never asks for a count below one |
| CartViewModel.IncreaseDecreaseSameLine | app/src/main/java/com/example/towdepo/viewmodels/CartViewModel.kt:78-152 | increase and decrease act on the same line: their counts differ by two |
| CartViewModel.CartViewModel.constructor | app/src/main/java/com/example/towdepo/viewmodels/CartViewModel.kt:19-26 | starts empty, not loading, without error |
| CartViewModel.CartViewModel.LoadCartItems | app/src/main/java/com/example/towdepo/viewmodels/CartViewModel.kt:28-52 | the lines become the repository's, with no error and not loading |
| CartViewModel.CartViewModel.Settle | app/src/main/java/com/example/towdepo/viewmodels/CartViewModel.kt:54-210 | a successful write reloads the cart; a failed one shows its message and keeps the lines |
| CartViewModel.CartViewModel.AddToCart | app/src/main/java/com/example/towdepo/viewmodels/CartViewModel.kt:54-76 | adds the product and quantity; reload on success, the add failure message otherwise |
| CartViewModel.CartViewModel.IncreaseQuantity | app/src/main/java/com/example/towdepo/viewmodels/CartViewModel.kt:78-112 | an empty id and an unknown id are errors; otherwise the increase call, then reload or failure message |
| CartViewModel.CartViewModel.DecreaseQuantity | app/src/main/java/com/example/towdepo/viewmodels/CartViewModel.kt:114-152 | an empty id and an unknown id are errors; otherwise the decrease call (a delete at one), then reload or the matching failure message |
| CartViewModel.CartViewModel.DeleteCartItem | app/src/main/java/com/example/towdepo/viewmodels/CartViewModel.kt:154-181 | an empty id is an error; otherwise a delete, then reload or failure message |
| CartViewModel.CartViewModel.UpdateCartItem | app/src/main/java/com/example/towdepo/viewmodels/CartViewModel.kt:183-210 | an empty id is an error; otherwise an update to the new count, then reload or failure message |
| CartViewModel.CartViewModel.ClearError | app/src/main/java/com/example/towdepo/viewmodels/CartViewModel.kt:224-226 | only the error is cleared |
| PaymentViewModel.OrderStateOf | app/src/main/java/com/example/towdepo/viewmodels/PaymentViewModel.kt:27-34 | Success with the data iff the repository succeeded, Error with its message otherwise; never Idle or Loading |
| PaymentViewModel.VerificationStateOf | app/src/main/java/com/example/towdepo/viewmodels/PaymentViewModel.kt:47-60 | Success with the data iff the repository succeeded, Error with its message otherwise; never Idle or Loading |
| PaymentViewModel.OrderSuccessMeansServerAccepted | app/src/main/java/com/example/towdepo/viewmodels/PaymentViewModel.kt:24-36 | an order shown as successful was accepted by the server with a body, and shows that body |
| PaymentViewModel.VerificationSuccessMeansConfirmed | app/src/main/java/com/example/towdepo/viewmodels/PaymentViewModel.kt:38-62 | a verification shown as successful was answered 2xx for exactly the ids given |
| PaymentViewModel.PaymentViewModel.constructor | app/src/main/java/com/example/towdepo/viewmodels/PaymentViewModel.kt:18-22 | both states start Idle |
| PaymentViewModel.PaymentViewModel.CreatePaymentOrder | app/src/main/java/com/example/towdepo/viewmodels/PaymentViewModel.kt:24-36 | the order state passes through Loading and ends at the repository's outcome |
| PaymentViewModel.PaymentViewModel.VerifyPayment | app/src/main/java/com/example/towdepo/viewmodels/PaymentViewModel.kt:38-62 | the verification state passes through Loading and ends at the repository's outcome |
| PaymentViewModel.PaymentViewModel.ResetPaymentOrderState | app/src/main/java/com/example/towdepo/viewmodels/PaymentViewModel.kt:64-66 | the order state returns to Idle |
| PaymentViewModel.PaymentViewModel.ResetPaymentVerificationState | app/src/main/java/com/example/towdepo/viewmodels/PaymentViewModel.kt:68-70 | the verification state returns to Idle |
| WishlistViewModel.LoadOutcome | app/src/main/java/com/example/towdepo/viewmodels/WishlistViewModel.kt:29-44 | the list iff a 2xx answer (empty without a body); otherwise the status or exception message |
| WishlistViewModel.LoadMessagesDistinct | app/src/main/java/com/example/towdepo/viewmodels/WishlistViewModel.kt:37-42 | a refusal and an exception never give the same message |
| WishlistViewModel.WishlistViewModel.constructor | app/src/main/java/com/example/towdepo/viewmodels/WishlistViewModel.kt:16-23 | starts empty, not loading, without error |
| WishlistViewModel.WishlistViewModel.LoadWishlist | app/src/main/java/com/example/towdepo/viewmodels/WishlistViewModel.kt:25-49 | the list is replaced on success; on failure the list is kept and the message shown; never left loading |
| WishlistViewModel.WishlistViewModel.AddToWishlist | app/src/main/java/com/example/towdepo/viewmodels/WishlistViewModel.kt:51-80 | sends the entry with its product id; a success reloads, a failure changes nothing |
| WishlistViewModel.WishlistViewModel.RemoveFromWishlist | app/src/main/java/com/example/towdepo/viewmodels/WishlistViewModel.kt:82-97 | a success reloads, a failure changes nothing |
| WishlistViewModel.WishlistViewModel.ClearError | app/src/main/java/com/example/towdepo/viewmodels/WishlistViewModel.kt:99-101 | only the error is cleared |
| AuthViewModel.Settled | app/src/main/java/com/example/towdepo/viewmodels/AuthViewModel.kt:36-42 | Success with the user iff the call returned; otherwise the exception message or the fallback |
| AuthViewModel.LogoutRequestFor | app/src/main/java/com/example/towdepo/viewmodels/AuthViewModel.kt:72-75 | a logout is sent iff a non-empty refresh token is stored, and carries it |
| AuthViewModel.LogoutAfterLoginSendsIssuedToken | app/src/main/java/com/example/towdepo/viewmodels/AuthViewModel.kt:69-75 | after a login the logout sends the refresh token that login issued |
| AuthViewModel.AuthViewModel.constructor | app/src/main/java/com/example/towdepo/viewmodels/AuthViewModel.kt:17-29 | starts Idle with the store's login status and user |
| AuthViewModel.AuthViewModel.Finish | app/src/main/java/com/example/towdepo/viewmodels/AuthViewModel.kt:35-43 | a returned response is saved and its user becomes current and logged in; an exception changes only the state |
| AuthViewModel.AuthViewModel.Login | app/src/main/java/com/example/towdepo/viewmodels/AuthViewModel.kt:31-45 | Loading, then the login outcome; the store holds the response on success |
| AuthViewModel.AuthViewModel.Register | app/src/main/java/com/example/towdepo/viewmodels/AuthViewModel.kt:47-67 | Loading, then the registration outcome; the store holds the response on success |
| AuthViewModel.AuthViewModel.Logout | app/src/main/java/com/example/towdepo/viewmodels/AuthViewModel.kt:69-85 | sends the stored refresh token if any, then always clears the store, the user and the login flag and returns to Idle |
| ImageUtils.ImageBaseUrl | app/src/main/java/com/example/towdepo/di/AppConfig.kt:27-29 | the development or production base by the switch; an http URL ending in /uploads/product/ |
| ImageUtils.ProductImageUrl | app/src/main/java/com/example/towdepo/utils/ImageUtils.kt:10-12 | the base followed by exactly the src |
| ImageUtils.ProductImageUrlInjective | app/src/main/java/com/example/towdepo/utils/ImageUtils.kt:10-12 | different srcs give different URLs |
| ImageUtils.SafeProductImageUrl | app/src/main/java/com/example/towdepo/utils/ImageUtils.kt:17-23 | none iff the src is null or empty, otherwise the product image URL |
| ImageUtils.SafeUrlBelowRoot | app/src/main/java/com/example/towdepo/utils/ImageUtils.kt:17-23 | a safe URL always names a file below the base, never the base itself |
| ImageUtils.PlaceholderImageUrl | app/src/main/java/com/example/towdepo/utils/ImageUtils.kt:28-30 | an https URL outside the product image base |
| CheckoutScreen.EmailValid | app/src/main/java/com/example/towdepo/ui/theme/screnns/CheckoutScreen.kt:291 | valid iff the email is not blank and has an @ character somewhere |
| CheckoutScreen.ConfirmEmailValid | app/src/main/java/com/example/towdepo/ui/theme/screnns/CheckoutScreen.kt:292 | valid iff the confirmation equals the email and the email is not blank |
| CheckoutScreen.FormValid | app/src/main/java/com/example/towdepo/ui/theme/screnns/CheckoutScreen.kt:291-305 | valid iff the required fields are non-blank, the email contains @ and the confirmation equals it |
| CheckoutScreen.FormValidIgnoresLine2 | app/src/main/java/com/example/towdepo/ui/theme/screnns/CheckoutScreen.kt:293-305 | the second address line never decides validity |
| CheckoutScreen.EmptyFormInvalid | app/src/main/java/com/example/towdepo/ui/theme/screnns/CheckoutScreen.kt:460-471 | the reset form cannot be saved |
| CheckoutScreen.EmailNeedsAt | app/src/main/java/com/example/towdepo/ui/theme/screnns/CheckoutScreen.kt:291 | an email without @ keeps the form invalid |
| CheckoutScreen.NewAddress | app/src/main/java/com/example/towdepo/ui/theme/screnns/CheckoutScreen.kt:444-456 | the typed fields and user id, no id, type Shipping, empty timestamps |
| CheckoutScreen.EditForm | app/src/main/java/com/example/towdepo/ui/theme/screnns/CheckoutScreen.kt:649-658 | the dialog starts from the address, with the confirmation filled from the email |
| CheckoutScreen.EditedAddress | app/src/main/java/com/example/towdepo/ui/theme/screnns/CheckoutScreen.kt:813-823 | the nine edited fields change; id, user, stored confirmation, type and timestamps are kept |
| CheckoutScreen.EditUntouchedIsIdentity | app/src/main/java/com/example/towdepo/ui/theme/screnns/CheckoutScreen.kt:649-823 | confirming an untouched dialog sends the address back unchanged |
| CheckoutScreen.EditThenReopen | app/src/main/java/com/example/towdepo/ui/theme/screnns/CheckoutScreen.kt:649-823 | re-opening shows what was typed, with the confirmation re-filled |
| CheckoutScreen.EditIgnoresConfirmation | app/src/main/java/com/example/towdepo/ui/theme/screnns/CheckoutScreen.kt:813-823 | the typed confirmation is never sent |
| CheckoutScreen.SavedAddressUser | app/src/main/java/com/example/towdepo/ui/theme/screnns/CheckoutScreen.kt:444-457 | the view-model's user id replaces the one the form used |
| CheckoutScreen.PlaceOrderEnabled | app/src/main/java/com/example/towdepo/ui/theme/screnns/CheckoutScreen.kt:198 | enabled iff nothing is loading and the view-model's order validation finds no error |
| CheckoutScreen.EnabledOrderPasses | app/src/main/java/com/example/towdepo/ui/theme/screnns/CheckoutScreen.kt:198 | an enabled Place Order button never meets an order-validation error |
| CheckoutScreen.RefusedOrderDisabled | app/src/main/java/com/example/towdepo/ui/theme/screnns/CheckoutScreen.kt:198 | whenever the order would be refused the button is disabled |
| CheckoutScreen.IsSelected | app/src/main/java/com/example/towdepo/ui/theme/screnns/CheckoutScreen.kt:498 | highlighted iff an address is selected with the same id |
| CheckoutScreen.AtMostOneHighlighted | app/src/main/java/com/example/towdepo/ui/theme/screnns/CheckoutScreen.kt:498 | with distinct ids at most one card is highlighted |
| CheckoutScreen.SelectedIsHighlighted | app/src/main/java/com/example/towdepo/ui/theme/screnns/CheckoutScreen.kt:498 | a listed selection is highlighted |
| CheckoutScreen.DiscountedPrice | app/src/main/java/com/example/towdepo/ui/theme/screnns/CheckoutScreen.kt:1032-1035 | the price for an unparseable discount, within [0, price] for a discount in [0, 100] |
| CheckoutScreen.LineUsesDisplayedPrice | app/src/main/java/com/example/towdepo/ui/theme/screnns/CheckoutScreen.kt:908-932 | a summary line is its displayed unit price times its count, as the subtotal counts it |
| CartScreen.RouteQuantity | app/src/main/java/com/example/towdepo/ui/theme/screnns/CartScreen.kt:279-286 | a positive quantity is an update, anything else a delete |
| CartScreen.DecreaseClick | app/src/main/java/com/example/towdepo/ui/theme/screnns/CartScreen.kt:524-532 | acts iff the line has an id and a count above one, asking for one less |
| CartScreen.IncreaseClick | app/src/main/java/com/example/towdepo/ui/theme/screnns/CartScreen.kt:544-546 | acts iff the line has an id, asking for one more (a delete for a negative count) |
| CartScreen.RemoveConfirm | app/src/main/java/com/example/towdepo/ui/theme/screnns/CartScreen.kt:360-366 | a delete iff the line has an id |
| CartScreen.DecreaseNeverDeletes | app/src/main/java/com/example/towdepo/ui/theme/screnns/CartScreen.kt:524-532 | the minus button never deletes; at one it does nothing |
| CartScreen.DecreaseClickAgreesWithViewModel | app/src/main/java/com/example/towdepo/viewmodels/CartViewModel.kt:114-152 | the minus button asks for what the view-model's decrease would |
| CartScreen.IncreaseClickAgreesWithViewModel | app/src/main/java/com/example/towdepo/viewmodels/CartViewModel.kt:78-112 | the plus button asks for what the view-model's increase would |
| CartScreen.BrandDisplayName | app/src/main/java/com/example/towdepo/ui/theme/screnns/CartScreen.kt:639-646 | N/A for an empty brand or one containing default, otherwise the brand |
| CartScreen.BrandLabelIsClean | app/src/main/java/com/example/towdepo/ui/theme/screnns/CartScreen.kt:639-646 | the label is never empty and never contains default |
| CartScreen.BrandDisplayNameIdempotent | app/src/main/java/com/example/towdepo/ui/theme/screnns/CartScreen.kt:639-646 | labelling a label changes nothing |
| CartScreen.CardImageUrl | app/src/main/java/com/example/towdepo/ui/theme/screnns/CartScreen.kt:334-340 | none iff there is no first image src, otherwise that src under the image base |
| WishlistScreen.ListKey | app/src/main/java/com/example/towdepo/ui/theme/screnns/WishlistScreen.kt:153 | the entry id, else the product id, else empty |
| WishlistScreen.RemoveTarget | app/src/main/java/com/example/towdepo/ui/theme/screnns/WishlistScreen.kt:157-160 | remove is called iff the entry has its own id, with that id |
| WishlistScreen.RemoveTargetIsKey | app/src/main/java/com/example/towdepo/ui/theme/screnns/WishlistScreen.kt:153-160 | the removed id is the list key |
| WishlistScreen.ClickTarget | app/src/main/java/com/example/towdepo/ui/theme/screnns/WishlistScreen.kt:193-202 | clickable iff the product exists, opening its id |
| WishlistScreen.KeyFallsBackToClickTarget | app/src/main/java/com/example/towdepo/ui/theme/screnns/WishlistScreen.kt:153-202 | an entry without its own id is keyed by the product it opens |
| WishlistScreen.ImageChoice | app/src/main/java/com/example/towdepo/ui/theme/screnns/WishlistScreen.kt:179-189 | the entry image, else the product's first image, else none; always under the image base |
| WishlistScreen.DiscountBadge | app/src/main/java/com/example/towdepo/ui/theme/screnns/WishlistScreen.kt:278-301 | a badge iff the discount is a well-formed positive Int, showing that Int |
| WishlistScreen.DecimalDiscountHasNoBadge | app/src/main/java/com/example/towdepo/ui/theme/screnns/WishlistScreen.kt:278-288 | a decimal discount shows no badge |
| WishlistScreen.BadgeText | app/src/main/java/com/example/towdepo/ui/theme/screnns/WishlistScreen.kt:295 | the text ends in % OFF and its number reads back as the percentage |
| WishlistScreen.WishlistBrandDisplayName | app/src/main/java/com/example/towdepo/ui/theme/screnns/WishlistScreen.kt:346-354 | Unknown Brand shows as N/A, any other brand as on the cart screen |
| WishlistScreen.BrandLabelsDifferOnlyOnUnknown | app/src/main/java/com/example/towdepo/ui/theme/screnns/WishlistScreen.kt:346-354 | the wishlist and cart labels differ exactly for Unknown Brand |
| ProductsScreen.FilteredProducts | app/src/main/java/com/example/towdepo/ui/theme/screnns/ProductsScreen.kt:50-57 | a blank query shows every product; otherwise only products in the list that match |
| ProductsScreen.FilterIsComplete | app/src/main/java/com/example/towdepo/ui/theme/screnns/ProductsScreen.kt:50-57 | every matching product is shown |
| ProductsScreen.FilterKeepsOrder | app/src/main/java/com/example/towdepo/ui/theme/screnns/ProductsScreen.kt:50-57 | the shown products keep the list order; each product appears exactly as often as in the list when it matches (or the query is blank) and not at all otherwise |
| ProductsScreen.LongerQueryNarrows | app/src/main/java/com/example/towdepo/ui/theme/screnns/ProductsScreen.kt:50-57 | typing more never brings back a hidden product |
| ProductsScreen.ProductsFoundText | app/src/main/java/com/example/towdepo/ui/theme/screnns/ProductsScreen.kt:141 | the count line ends in products found and its number is the count shown |
| SignupScreen.MismatchWarning | app/src/main/java/com/example/towdepo/ui/theme/screnns/SignupScreen.kt:81 | the warning shows only for differing passwords, and never while either field is empty |
| SignupScreen.RegisterEnabled | app/src/main/java/com/example/towdepo/ui/theme/screnns/SignupScreen.kt:129-132 | enabled iff name and email are non-empty, the password is at least six UTF-16 code units long and the confirmation matches; an enabled password has at least three characters |
| SignupScreen.ThreeEmojiPasswordEnabled | app/src/main/java/com/example/towdepo/ui/theme/screnns/SignupScreen.kt:131 | a password of three characters outside the Basic Multilingual Plane counts as six and enables the button |
| SignupScreen.BmpPasswordNeedsSixCharacters | app/src/main/java/com/example/towdepo/ui/theme/screnns/SignupScreen.kt:129-132 | for a password without supplementary characters the limit is six characters |
| SignupScreen.EnabledMeansNoWarning | app/src/main/java/com/example/towdepo/ui/theme/screnns/SignupScreen.kt:81-132 | an enabled button and the mismatch warning never show together |
| SignupScreen.ShortPasswordSilentlyDisabled | app/src/main/java/com/example/towdepo/ui/theme/screnns/SignupScreen.kt:81-132 | a non-empty password shorter than six code units typed twice shows no warning yet disables the button |
| SignupScreen.RegisterClick | app/src/main/java/com/example/towdepo/ui/theme/screnns/SignupScreen.kt:91-137 | a request iff the button is shown and enabled, carrying name, email and password |
| SignupScreen.ConfirmationNotSent | app/src/main/java/com/example/towdepo/ui/theme/screnns/SignupScreen.kt:129-135 | the password sent equals the confirmation and is at least six code units long |
| CartViewModel.CartViewModel.CalculateTotal | app/src/main/java/com/example/towdepo/viewmodels/CartViewModel.kt:212-218 | the discounted cart total of the current lines; for sensibly priced lines the cart total lies between 0 and the undiscounted total |
| CartViewModel.CartViewModel.GetTotalItems | app/src/main/java/com/example/towdepo/viewmodels/CartViewModel.kt:220-222 | the sum of the lines' quantities, not negative for non-negative counts |
| CheckoutViewModel.CheckoutViewModel.CalculateSubtotal | app/src/main/java/com/example/towdepo/viewmodels/CheckoutViewModel.kt:162-167 | the subtotal of the current lines; for sensibly priced lines the subtotal lies between 0 and the undiscounted total |
| CheckoutViewModel.CheckoutViewModel.CalculateTotal | app/src/main/java/com/example/towdepo/viewmodels/CheckoutViewModel.kt:179-181 | the checkout total of the current lines; for sensibly priced lines the total is at least the subtotal and at most the taxed undiscounted total plus the shipping fee |
| CheckoutViewModel.CheckoutViewModel.GetTotalItems | app/src/main/java/com/example/towdepo/viewmodels/CheckoutViewModel.kt:183-185 | the sum of the lines' quantities, not negative for non-negative counts |

## Left out

- Coroutines and I/O: each `viewModelScope.launch` body is one atomic step. A reload launched from inside a write runs after the write's `finally`, so the race between that `finally` and the reload's loading flag is not modelled. Rapid repeated taps are not modelled either.
- Network, Retrofit and the HTTP layer: every endpoint is a function field of an API value, and its answer or exception is a value. The wishlist and product repositories only forward to their endpoints, so the wishlist view-model calls its endpoints directly.
- `RetrofitInstance.initialize` in the authentication view-model's `init`: this is wiring with no state of its own.
- Floating point: prices are exact reals. `Double` rounding and `String.format("%.2f")` in the screens are not modelled.
- `toDoubleOrNull` is a parameter (`Pricing.DecimalParser`). Its acceptance of `NaN`, `Infinity` and exponents is therefore not fixed by the model.
- `Text.ParseInt` accepts ASCII digits only. Kotlin's `toInt` also accepts other Unicode decimal digits.
- CartViewModel.CartViewModel.IncreaseQuantity: counts and sums are unbounded integers, so the 32-bit wrap of `count + 1` at `Int.MAX_VALUE` and of `sumOf` is not modelled.
- The date parser and the clock of `isAccessTokenExpired` are parameters: `TokenStore.InstantParser` and `now`.
- SharedPreferences is an in-memory map. Reading a string under a key that holds a flag, or the reverse, is treated as absent rather than as the `ClassCastException` Android throws.
- Header names are matched exactly. OkHttp treats them case-insensitively, so a lower-case `authorization` header already on the request is not replaced in the model.
- The Razorpay SDK, payment screen effects, Compose layout, styling and navigation are not modelled. The checkout screen's Place Order button navigates to payment; it does not call `placeOrder`, and the model states only when the button is enabled.
- The unused `userId` parameter of `placeOrder` is not modelled, and neither is the `tokenManager` constructor parameter of the checkout view-model.
- The checkout form's `mutableStateOf` fields are UI state. The model has the form as a value, with the empty form it is reset to.
- Catch-all default messages that no modelled exception can reach are not modelled: "Failed to load addresses", "Failed to delete address", "Failed to update address", "Failed to save address" and "Failed to place order". The repositories always throw with a message.
- `PaymentVerificationResponse.data` is not modelled, because no modelled code reads it.
- Retrofit's `HttpException` is modelled by its status code and its message. The status code decides every branch; the message is only carried into the texts that interpolate it: a failed address fetch ("Failed to fetch addresses: ...") and a delete whose call throws ("Failed to delete address: ...").
- The authentication view-model sets the logged-in flag after a login without checking the new token's expiry. The model does the same: `Finish` sets it true.
- ProductsScreen.ContainsIgnoreCase: the character comparison under `ignoreCase = true` is a folding function passed as a parameter (`ProductsScreen.CaseFold`), not Java's upper- and lower-case tables.
- The stock label and the "Product information unavailable" text of the wishlist card are display text and are not modelled.
