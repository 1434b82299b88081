/** The payment repository: creating a gateway order and verifying a
    completed payment with the backend. */
module PaymentRepository {
  import opened Common
  import opened Text
  import opened Http
  import opened PaymentModel

  /** The payment endpoints, each taking the `Authorization` header value
      first. */
  datatype PaymentApi = PaymentApi(
    createPaymentOrder: (string, PaymentOrderRequest) -> Call<PaymentOrderResponse>,
    verifyPayment: (string, PaymentVerificationRequest) -> Call<PaymentVerificationResponse>)

  /** The repository's `Result`: the body, or an exception carrying a
      message. */
  datatype PaymentResult<T> = Success(data: T) | Error(message: string)

  /** The outcome of a call whose answer counts only as a 2xx with a body;
      `failure` maps any other status to its message. */
  function Outcome<T>(call: Call<T>, failure: int -> string): (r: PaymentResult<T>)
    ensures r.Success? <==> Succeeded(call) && call.response.body.Some?
    ensures r.Success? ==> r.data == call.response.body.value
    ensures call.Answered? && r.Error? ==> r.message == failure(call.response.code)
    ensures call.Threw? ==> r.message == "Network error: " + Interpolate(call.exception.message)
  {
    match call
    case Threw(e) => Error("Network error: " + Interpolate(e.message))
    case Answered(response) =>
      if response.IsSuccessful() && response.body.Some? then Success(response.body.value)
      else Error(failure(response.code))
  }

  /** The message for an order request the server did not take. */
  function CreateOrderFailure(code: int): (m: string)
    ensures code == 404 ==> m == "Payment service not found. Please check backend setup."
    ensures code == 401 ==> m == "Authentication failed. Please login again."
    ensures code == 500 ==> m == "Server error. Please try again later."
    ensures code !in {401, 404, 500} ==> m == "Failed to create payment order: " + IntToString(code)
  {
    if code == 404 then "Payment service not found. Please check backend setup."
    else if code == 401 then "Authentication failed. Please login again."
    else if code == 500 then "Server error. Please try again later."
    else "Failed to create payment order: " + IntToString(code)
  }

  /** The message for a verification the server did not confirm. */
  function VerifyFailure(code: int): (m: string)
    ensures code == 404 ==> m == "Payment verification service not found."
    ensures code == 401 ==> m == "Authentication failed."
    ensures code !in {401, 404} ==> m == "Payment verification failed: " + IntToString(code)
  {
    if code == 404 then "Payment verification service not found."
    else if code == 401 then "Authentication failed."
    else "Payment verification failed: " + IntToString(code)
  }

  /** `createPaymentOrder`: sends the amount and order id with the token, and
      succeeds with the server's answer exactly when it is a 2xx with a
      body. */
  function CreatePaymentOrder(token: string, amount: real, orderId: string, api: PaymentApi): (r: PaymentResult<PaymentOrderResponse>)
    ensures var call := api.createPaymentOrder("Bearer " + token, PaymentOrderRequest(amount, orderId));
            && (r.Success? <==> Succeeded(call) && call.response.body.Some?)
            && (r.Success? ==> r.data == call.response.body.value)
            && (call.Answered? && r.Error? ==> r.message == CreateOrderFailure(call.response.code))
            && (call.Threw? ==> r.message == "Network error: " + Interpolate(call.exception.message))
  {
    Outcome(api.createPaymentOrder("Bearer " + token, PaymentOrderRequest(amount, orderId)), CreateOrderFailure)
  }

  /** `verifyPayment`: sends the gateway's order id, payment id and signature
      and the app's order id, and succeeds exactly when the answer is a 2xx
      with a body. */
  function VerifyPayment(token: string, razorpayOrderId: string, razorpayPaymentId: string,
                         razorpaySignature: string, orderId: string, api: PaymentApi): (r: PaymentResult<PaymentVerificationResponse>)
    ensures var call := api.verifyPayment("Bearer " + token,
                           PaymentVerificationRequest(razorpayOrderId, razorpayPaymentId, razorpaySignature, orderId));
            && (r.Success? <==> Succeeded(call) && call.response.body.Some?)
            && (r.Success? ==> r.data == call.response.body.value)
            && (call.Answered? && r.Error? ==> r.message == VerifyFailure(call.response.code))
            && (call.Threw? ==> r.message == "Network error: " + Interpolate(call.exception.message))
  {
    Outcome(api.verifyPayment("Bearer " + token,
              PaymentVerificationRequest(razorpayOrderId, razorpayPaymentId, razorpaySignature, orderId)),
            VerifyFailure)
  }

  /** A 2xx answer without a body is still a failure, reported with the 2xx
      status as if it were an error code. */
  lemma EmptySuccessIsFailure(token: string, amount: real, orderId: string, api: PaymentApi)
    requires var call := api.createPaymentOrder("Bearer " + token, PaymentOrderRequest(amount, orderId));
             call.Answered? && call.response.code == 200 && call.response.body.None?
    ensures CreatePaymentOrder(token, amount, orderId, api) == Error("Failed to create payment order: 200")
  {
    assert NatToString(200) == "200" by {
      assert NatToString(2) == "2";
      assert NatToString(20) == NatToString(2) + "0";
    }
  }

  /** Failures with different unmapped statuses carry different messages. */
  lemma CreateOrderFailureNamesStatus(a: int, b: int)
    requires IntMin <= a <= IntMax && IntMin <= b <= IntMax
    requires a !in {401, 404, 500} && b !in {401, 404, 500}
    requires CreateOrderFailure(a) == CreateOrderFailure(b)
    ensures a == b
  {
    var p := "Failed to create payment order: ";
    assert (p + IntToString(a))[|p|..] == IntToString(a);
    assert (p + IntToString(b))[|p|..] == IntToString(b);
    IntToStringInjective(a, b);
  }

  /** A network failure never passes for a server refusal: its message starts
      with `Network error: `, which no status message does. */
  lemma NetworkErrorIsDistinct(call: Call<PaymentVerificationResponse>, code: int)
    requires call.Threw?
    ensures Outcome(call, VerifyFailure).message != VerifyFailure(code)
  {
    var m := Outcome(call, VerifyFailure).message;
    assert m[0] == 'N';
    assert VerifyFailure(code)[0] in {'P', 'A'};
  }
}
