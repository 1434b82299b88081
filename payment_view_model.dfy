/** The payment view-model: the state of creating a gateway order and of
    verifying a payment, each moving Idle → Loading → Success or Error. */
module PaymentViewModel {
  import opened Common
  import opened Http
  import opened PaymentModel
  import PaymentRepository

  datatype PaymentOrderState = Idle | Loading | Success(data: PaymentOrderResponse) | Error(message: string)

  datatype PaymentVerificationState =
    | VerificationIdle
    | VerificationLoading
    | VerificationSuccess(data: PaymentVerificationResponse)
    | VerificationError(message: string)

  /** The state a finished order request settles in. The repository always
      puts a message on its exception, so the `Unknown error` fallback is
      never shown. */
  function OrderStateOf(r: PaymentRepository.PaymentResult<PaymentOrderResponse>): (s: PaymentOrderState)
    ensures s.Success? <==> r.Success?
    ensures s.Success? ==> s.data == r.data
    ensures s.Error? ==> s.message == r.message
    ensures !s.Idle? && !s.Loading?
  {
    match r
    case Success(data) => Success(data)
    case Error(message) => Error(message)
  }

  /** The state a finished verification settles in. */
  function VerificationStateOf(r: PaymentRepository.PaymentResult<PaymentVerificationResponse>): (s: PaymentVerificationState)
    ensures s.VerificationSuccess? <==> r.Success?
    ensures s.VerificationSuccess? ==> s.data == r.data
    ensures s.VerificationError? ==> s.message == r.message
    ensures !s.VerificationIdle? && !s.VerificationLoading?
  {
    match r
    case Success(data) => VerificationSuccess(data)
    case Error(message) => VerificationError(message)
  }

  /** The order screen only reaches `Success` for a 2xx answer with a body
      to the request built from the caller's amount and order id. */
  lemma OrderSuccessMeansServerAccepted(token: string, amount: real, orderId: string, api: PaymentRepository.PaymentApi)
    requires OrderStateOf(PaymentRepository.CreatePaymentOrder(token, amount, orderId, api)).Success?
    ensures var call := api.createPaymentOrder("Bearer " + token, PaymentOrderRequest(amount, orderId));
            Succeeded(call) && call.response.body.Some?
            && OrderStateOf(PaymentRepository.CreatePaymentOrder(token, amount, orderId, api)).data == call.response.body.value
  {
  }

  /** Verification only reaches `Success` when the server confirms the exact
      gateway triple and order id it was given. */
  lemma VerificationSuccessMeansConfirmed(token: string, razorpayOrderId: string, razorpayPaymentId: string,
                                         razorpaySignature: string, orderId: string, api: PaymentRepository.PaymentApi)
    requires VerificationStateOf(PaymentRepository.VerifyPayment(token, razorpayOrderId, razorpayPaymentId,
                                                                 razorpaySignature, orderId, api)).VerificationSuccess?
    ensures Succeeded(api.verifyPayment("Bearer " + token,
                        PaymentVerificationRequest(razorpayOrderId, razorpayPaymentId, razorpaySignature, orderId)))
  {
  }

  /** The payment screen's state holder. The ghost histories record every
      state the screen can observe, in order. */
  class PaymentViewModel {
    var paymentOrderState: PaymentOrderState
    var paymentVerificationState: PaymentVerificationState
    ghost var orderHistory: seq<PaymentOrderState>
    ghost var verificationHistory: seq<PaymentVerificationState>

    constructor()
      ensures paymentOrderState == Idle && paymentVerificationState == VerificationIdle
      ensures orderHistory == [Idle] && verificationHistory == [VerificationIdle]
    {
      paymentOrderState := Idle;
      paymentVerificationState := VerificationIdle;
      orderHistory := [Idle];
      verificationHistory := [VerificationIdle];
    }

    /** `createPaymentOrder`: shows `Loading`, then the settled state. The
        verification state is not touched. */
    method CreatePaymentOrder(token: string, amount: real, orderId: string, api: PaymentRepository.PaymentApi)
      modifies this`paymentOrderState, this`orderHistory
      ensures paymentOrderState == OrderStateOf(PaymentRepository.CreatePaymentOrder(token, amount, orderId, api))
      ensures orderHistory == old(orderHistory) + [Loading, paymentOrderState]
    {
      paymentOrderState := Loading;
      orderHistory := orderHistory + [paymentOrderState];
      paymentOrderState := OrderStateOf(PaymentRepository.CreatePaymentOrder(token, amount, orderId, api));
      orderHistory := orderHistory + [paymentOrderState];
    }

    /** `verifyPayment`: shows `Loading`, then the settled state. The order
        state is not touched. */
    method VerifyPayment(token: string, razorpayOrderId: string, razorpayPaymentId: string,
                         razorpaySignature: string, orderId: string, api: PaymentRepository.PaymentApi)
      modifies this`paymentVerificationState, this`verificationHistory
      ensures paymentVerificationState ==
                VerificationStateOf(PaymentRepository.VerifyPayment(token, razorpayOrderId, razorpayPaymentId,
                                                                    razorpaySignature, orderId, api))
      ensures verificationHistory == old(verificationHistory) + [VerificationLoading, paymentVerificationState]
    {
      paymentVerificationState := VerificationLoading;
      verificationHistory := verificationHistory + [paymentVerificationState];
      paymentVerificationState := VerificationStateOf(PaymentRepository.VerifyPayment(token, razorpayOrderId,
                                    razorpayPaymentId, razorpaySignature, orderId, api));
      verificationHistory := verificationHistory + [paymentVerificationState];
    }

    /** `resetPaymentOrderState`. */
    method ResetPaymentOrderState()
      modifies this`paymentOrderState, this`orderHistory
      ensures paymentOrderState == Idle && orderHistory == old(orderHistory) + [Idle]
    {
      paymentOrderState := Idle;
      orderHistory := orderHistory + [Idle];
    }

    /** `resetPaymentVerificationState`. */
    method ResetPaymentVerificationState()
      modifies this`paymentVerificationState, this`verificationHistory
      ensures paymentVerificationState == VerificationIdle
      ensures verificationHistory == old(verificationHistory) + [VerificationIdle]
    {
      paymentVerificationState := VerificationIdle;
      verificationHistory := verificationHistory + [VerificationIdle];
    }
  }
}
