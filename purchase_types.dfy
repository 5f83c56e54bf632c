/** Values shared by the purchase dialog's view rules and its step controller. */
module PurchaseTypes {

  datatype Option<+T> = None | Some(value: T)

  /** The dialog's `step` state cell. The component only ever stores these three labels. */
  datatype Step = Selection | Payment | Success

  /** The `paymentData` descriptor returned by the payment-intent service. */
  datatype PaymentData = PaymentData(orderId: string, amount: real, currency: string)

  /** The parts of a carbon credit the dialog reads (its id, its project and how much is available). */
  datatype Credit = Credit(id: string, projectId: string, amount: real)

  /** How the asynchronous payment-intent request settled: the response, or the thrown error's message. */
  datatype IntentOutcome = Ok(intent: PaymentData) | Err(message: string)
}
