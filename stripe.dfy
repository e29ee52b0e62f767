/**
 * The requests the billing services send to the payment provider (Stripe)
 * and the objects it answers with, reduced to the fields the services read
 * or set. Every call to the provider is a function parameter of the
 * operation that makes it, returning `Failure` when the call throws.
 */
module StripeApi {
  import opened Wrappers
  import opened Money

  datatype Metadata = Metadata(invoiceId: Option<string>, userId: Option<string>)

  datatype CustomerRequest = CustomerRequest(email: string, name: Option<string>, userId: string)
  datatype Customer = Customer(id: string)

  datatype IntentRequest = IntentRequest(amountCents: int, currency: string, customer: Option<string>,
                                         metadata: Metadata, description: Option<string>)
  datatype PaymentIntent = PaymentIntent(id: string, clientSecret: Option<string>, status: string,
                                         metadata: Metadata)

  datatype RefundRequest = RefundRequest(paymentIntent: string, amountCents: Option<int>)
  datatype Refund = Refund(id: string)

  /** JavaScript truthiness of an optional amount: absent and zero are falsy. */
  predicate TruthyAmount(amount: Option<real>) {
    amount.Some? && amount.value != 0.0
  }

  /** `amount ? Math.round(amount * 100) : undefined`: no amount asks for a full refund. */
  function RefundCents(amount: Option<real>): (cents: Option<int>)
    ensures cents.None? <==> !TruthyAmount(amount)
    ensures cents.Some? ==> amount.value * 100.0 - 0.5 < cents.value as real <= amount.value * 100.0 + 0.5
  {
    if TruthyAmount(amount) then Some(Cents(amount.value)) else None
  }
}
