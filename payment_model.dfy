/** The payment-order and verification payloads. */
module PaymentModel {
  import opened Common

  datatype PaymentOrderRequest = PaymentOrderRequest(amount: real, orderId: string)

  /** The gateway order the server created: the gateway's order id, the
      amount in minor units, and what the payment sheet needs. */
  datatype PaymentOrderData = PaymentOrderData(
    razorpayOrderId: string,
    amount: int,
    currency: string,
    orderId: string,
    key: string,
    customerEmail: Option<string>,
    customerPhone: Option<string>,
    customerName: Option<string>)

  datatype PaymentOrderResponse = PaymentOrderResponse(code: int, message: string, data: PaymentOrderData)

  datatype PaymentVerificationRequest = PaymentVerificationRequest(
    razorpayOrderId: string,
    razorpayPaymentId: string,
    razorpaySignature: string,
    orderId: string)

  /** The verification answer (its untyped `data` payload is not carried). */
  datatype PaymentVerificationResponse = PaymentVerificationResponse(code: int, message: string)
}
