/**
 * The payment processor (services/billing/src/services/payment-processor.ts):
 * customers created on demand, payment intents that move an invoice to
 * PROCESSING, confirmation, the success and failure handlers, subscription
 * bookkeeping on the user and refunds. Unlike the payment service, none of
 * its handlers touches a user's balance.
 */
module Processing {
  import opened Wrappers
  import opened Strings
  import opened Money
  import opened BillingDb
  import opened StripeApi

  const SucceededStatus: string := "succeeded"
  /** The `TypeError` raised when an invoice has no owner record to read the customer id from. */
  const OwnerMissing: string := "Cannot read properties of null (reading 'stripeCustomerId')"

  function InvoiceNotFound(invoiceId: string): string { "Invoice not found: " + invoiceId }
  function NoPaymentIntent(invoiceId: string): string { "No payment intent found for invoice: " + invoiceId }
  function InvoiceDescription(invoiceId: string): string { "CallStack Invoice " + invoiceId }

  /** The intent the processor asks for: the invoice in cents, charged to `customerId`. */
  function ProcessorIntentRequest(inv: Invoice, invoiceId: string, customerId: string): (req: IntentRequest)
    ensures inv.amount * 100.0 - 0.5 < req.amountCents as real <= inv.amount * 100.0 + 0.5
    ensures req.customer == Some(customerId) && req.metadata.invoiceId == Some(invoiceId)
    ensures forall i :: 0 <= i < |req.currency| ==> !IsUpperAscii(req.currency[i])
    ensures req.currency == ToLowerAscii(inv.currency)
    ensures req.metadata.userId == None && req.description == Some(InvoiceDescription(invoiceId))
  {
    IntentRequest(Cents(inv.amount), ToLowerAscii(inv.currency), Some(customerId),
                  Metadata(Some(invoiceId), None), Some(InvoiceDescription(invoiceId)))
  }

  /** `name || undefined`: an empty name is not sent. */
  function CustomerName(name: Option<string>): (r: Option<string>)
    ensures r.None? <==> !Truthy(name)
  {
    if Truthy(name) then name else None
  }

  // ---------------------------------------------------------------- handlers on the tables

  /** `handlePaymentSuccess`: PAID with the payment time. */
  function PaymentSuccess(b: Books, invoiceId: Option<string>, now: int): Step {
    if !Truthy(invoiceId) then Step(Done, b)
    else if invoiceId.value !in b.invoices then Step(Threw(RecordNotFound), b)
    else Step(Done, SetInvoice(b, b.invoices[invoiceId.value].(id := invoiceId.value, status := Paid,
                                                              paidAt := Some(now))))
  }

  /** `handlePaymentFailure`: FAILED, with no reason recorded. */
  function PaymentFailure(b: Books, invoiceId: Option<string>): Step {
    if !Truthy(invoiceId) then Step(Done, b)
    else if invoiceId.value !in b.invoices then Step(Threw(RecordNotFound), b)
    else Step(Done, SetInvoice(b, b.invoices[invoiceId.value].(id := invoiceId.value, status := Failed)))
  }

  /** The success and failure handlers never move a balance, whatever the event. */
  lemma HandlersKeepBalances(b: Books, invoiceId: Option<string>, now: int)
    ensures PaymentSuccess(b, invoiceId, now).books.accounts == b.accounts
    ensures PaymentFailure(b, invoiceId).books.accounts == b.accounts
  {
  }

  /** Without an invoice id both handlers return normally and change nothing. */
  lemma HandlersIgnoreMissingInvoiceId(b: Books, invoiceId: Option<string>, now: int)
    requires !Truthy(invoiceId)
    ensures PaymentSuccess(b, invoiceId, now) == Step(Done, b)
    ensures PaymentFailure(b, invoiceId) == Step(Done, b)
  {
  }

  /** `handleSubscriptionCreated` on the user table. */
  function SubscriptionCreated(accounts: map<string, Account>, subscriptionId: string, customer: string,
                               userId: Option<string>): (Outcome, map<string, Account>)
  {
    if !Truthy(userId) then (Done, accounts)
    else if userId.value !in accounts then (Threw(RecordNotFound), accounts)
    else (Done, accounts[userId.value := accounts[userId.value].(stripeSubscriptionId := Some(subscriptionId),
                                                                 stripeCustomerId := Some(customer))])
  }

  /** `handleSubscriptionDeleted` on the user table. */
  function SubscriptionDeleted(accounts: map<string, Account>, userId: Option<string>): (Outcome, map<string, Account>)
  {
    if !Truthy(userId) then (Done, accounts)
    else if userId.value !in accounts then (Threw(RecordNotFound), accounts)
    else (Done, accounts[userId.value := accounts[userId.value].(stripeSubscriptionId := None)])
  }

  /** Deleting a subscription right after creating it clears the subscription and keeps the customer. */
  lemma CreatedThenDeleted(accounts: map<string, Account>, subscriptionId: string, customer: string, userId: string)
    requires userId != "" && userId in accounts
    ensures var (_, created) := SubscriptionCreated(accounts, subscriptionId, customer, Some(userId));
      var (outcome, deleted) := SubscriptionDeleted(created, Some(userId));
      && outcome == Done
      && deleted.Keys == accounts.Keys
      && deleted[userId] == accounts[userId].(stripeSubscriptionId := None, stripeCustomerId := Some(customer))
      && (forall u :: u in accounts && u != userId ==> deleted[u] == accounts[u])
  {
    var a := accounts[userId];
    var created := accounts[userId := a.(stripeSubscriptionId := Some(subscriptionId), stripeCustomerId := Some(customer))];
    assert SubscriptionCreated(accounts, subscriptionId, customer, Some(userId)) == (Done, created);
    assert created[userId].(stripeSubscriptionId := None) == a.(stripeSubscriptionId := None, stripeCustomerId := Some(customer));
  }

  /**
   * The subscription handlers change nothing but the two Stripe ids of the
   * named user: every other user is untouched, and a named user that exists
   * gets exactly the ids the event carries.
   */
  lemma SubscriptionKeepsBalance(accounts: map<string, Account>, subscriptionId: string, customer: string,
                                 userId: Option<string>)
    ensures var (outcome, created) := SubscriptionCreated(accounts, subscriptionId, customer, userId);
      && created.Keys == accounts.Keys
      && (outcome == Threw(RecordNotFound) <==> Truthy(userId) && userId.value !in accounts)
      && (forall u :: u in accounts ==>
            created[u].(stripeSubscriptionId := accounts[u].stripeSubscriptionId,
                        stripeCustomerId := accounts[u].stripeCustomerId) == accounts[u])
      && (forall u :: u in accounts && (!Truthy(userId) || u != userId.value) ==> created[u] == accounts[u])
      && (Truthy(userId) && userId.value in accounts ==>
            created[userId.value].stripeSubscriptionId == Some(subscriptionId)
            && created[userId.value].stripeCustomerId == Some(customer))
    ensures var (outcome, deleted) := SubscriptionDeleted(accounts, userId);
      && deleted.Keys == accounts.Keys
      && (outcome == Threw(RecordNotFound) <==> Truthy(userId) && userId.value !in accounts)
      && (forall u :: u in accounts ==>
            deleted[u].(stripeSubscriptionId := accounts[u].stripeSubscriptionId) == accounts[u])
      && (forall u :: u in accounts && (!Truthy(userId) || u != userId.value) ==> deleted[u] == accounts[u])
      && (Truthy(userId) && userId.value in accounts ==> deleted[userId.value].stripeSubscriptionId == None)
  {
  }

  // ---------------------------------------------------------------- the processor

  class PaymentProcessor {
    const db: Database

    constructor (db: Database)
      ensures this.db == db
    {
      this.db := db;
    }

    /**
     * `createCustomer`: asks the provider for a customer and stores its id on
     * the user; the provider's customer survives a failed store.
     */
    method CreateCustomer(userId: string, email: string, name: Option<string>,
                          createCustomer: CustomerRequest -> Result<Customer, string>)
      returns (r: Result<Customer, string>)
      modifies db
      ensures db.invoices == old(db.invoices) && db.calls == old(db.calls)
      ensures var answer := createCustomer(CustomerRequest(email, name, userId));
        && (answer.Failure? ==> r == answer && db.accounts == old(db.accounts))
        && (answer.Success? && userId !in old(db.accounts) ==>
              r == Failure(RecordNotFound) && db.accounts == old(db.accounts))
        && (answer.Success? && userId in old(db.accounts) ==>
              r == answer
              && db.accounts == old(db.accounts)[userId := old(db.accounts)[userId].(stripeCustomerId := Some(answer.value.id))])
    {
      var answer := createCustomer(CustomerRequest(email, name, userId));
      if answer.Failure? {
        return answer;
      }
      if userId !in db.accounts {
        return Failure(RecordNotFound);
      }
      db.accounts := db.accounts[userId := db.accounts[userId].(stripeCustomerId := Some(answer.value.id))];
      r := answer;
    }

    /**
     * `createPaymentIntent`: creates the owner's provider customer first when
     * the owner has none, then the intent; the invoice stores the intent id
     * and becomes PROCESSING. The invoice's status is not checked.
     */
    method CreatePaymentIntent(invoiceId: string, createCustomer: CustomerRequest -> Result<Customer, string>,
                               createIntent: IntentRequest -> Result<PaymentIntent, string>)
      returns (r: Result<PaymentIntent, string>)
      modifies db
      ensures db.calls == old(db.calls)
      ensures invoiceId !in old(db.invoices) ==> r == Failure(InvoiceNotFound(invoiceId)) && db.accounts == old(db.accounts)
      ensures invoiceId in old(db.invoices) && old(db.invoices)[invoiceId].userId !in old(db.accounts) ==>
        r == Failure(OwnerMissing) && db.accounts == old(db.accounts)
      ensures r.Failure? ==> db.invoices == old(db.invoices)
      ensures invoiceId in old(db.invoices) && old(db.invoices)[invoiceId].userId in old(db.accounts) ==>
        var inv := old(db.invoices)[invoiceId];
        var owner := old(db.accounts)[inv.userId];
        && (Truthy(owner.stripeCustomerId) ==> db.accounts == old(db.accounts))
        && (!Truthy(owner.stripeCustomerId) ==>
              var answer := createCustomer(CustomerRequest(owner.email, CustomerName(owner.name), owner.id));
              && (answer.Failure? ==> r == Failure(answer.error) && db.accounts == old(db.accounts))
              && (answer.Success? && owner.id !in old(db.accounts) ==> r == Failure(RecordNotFound))
              && (answer.Success? && owner.id in old(db.accounts) ==>
                    db.accounts == old(db.accounts)[owner.id := old(db.accounts)[owner.id].(stripeCustomerId := Some(answer.value.id))]))
      ensures invoiceId in old(db.invoices) && old(db.invoices)[invoiceId].userId in old(db.accounts) ==>
        var inv := old(db.invoices)[invoiceId];
        var owner := old(db.accounts)[inv.userId];
        var answer := createCustomer(CustomerRequest(owner.email, CustomerName(owner.name), owner.id));
        (Truthy(owner.stripeCustomerId) || (answer.Success? && owner.id in old(db.accounts))) ==>
          var customerId := if Truthy(owner.stripeCustomerId) then owner.stripeCustomerId.value else answer.value.id;
          r == createIntent(ProcessorIntentRequest(inv, invoiceId, customerId))
      ensures r.Success? ==>
        && invoiceId in old(db.invoices)
        && var inv := old(db.invoices)[invoiceId];
           && inv.userId in old(db.accounts)
           && var owner := old(db.accounts)[inv.userId];
              var customerId := if Truthy(owner.stripeCustomerId) then owner.stripeCustomerId.value
                                else createCustomer(CustomerRequest(owner.email, CustomerName(owner.name), owner.id)).value.id;
              && r == createIntent(ProcessorIntentRequest(inv, invoiceId, customerId))
              && db.invoices == old(db.invoices)[invoiceId := inv.(paymentIntentId := Some(r.value.id), status := Processing)]
    {
      if invoiceId !in db.invoices {
        return Failure(InvoiceNotFound(invoiceId));
      }
      var inv := db.invoices[invoiceId];
      if inv.userId !in db.accounts {
        return Failure(OwnerMissing);
      }
      var owner := db.accounts[inv.userId];
      var customerId := owner.stripeCustomerId.GetOr("");
      if !Truthy(owner.stripeCustomerId) {
        var customer := CreateCustomer(owner.id, owner.email, CustomerName(owner.name), createCustomer);
        if customer.Failure? {
          return Failure(customer.error);
        }
        customerId := customer.value.id;
      }
      var request := ProcessorIntentRequest(inv, invoiceId, customerId);
      var answer := createIntent(request);
      if answer.Failure? {
        return answer;
      }
      db.invoices := db.invoices[invoiceId := inv.(paymentIntentId := Some(answer.value.id), status := Processing)];
      r := answer;
    }

    /** `handlePaymentSuccess`: performs `PaymentSuccess` on the tables. */
    method HandlePaymentSuccess(invoiceId: Option<string>, now: int) returns (outcome: Outcome)
      modifies db
      ensures Step(outcome, Books(db.invoices, db.accounts)) == PaymentSuccess(Books(old(db.invoices), old(db.accounts)), invoiceId, now)
      ensures db.calls == old(db.calls)
    {
      if !Truthy(invoiceId) {
        return Done;
      }
      var id := invoiceId.value;
      if id !in db.invoices {
        return Threw(RecordNotFound);
      }
      db.invoices := db.invoices[id := db.invoices[id].(id := id, status := Paid, paidAt := Some(now))];
      outcome := Done;
    }

    /** `handlePaymentFailure`: performs `PaymentFailure` on the tables. */
    method HandlePaymentFailure(invoiceId: Option<string>) returns (outcome: Outcome)
      modifies db
      ensures Step(outcome, Books(db.invoices, db.accounts)) == PaymentFailure(Books(old(db.invoices), old(db.accounts)), invoiceId)
      ensures db.calls == old(db.calls)
    {
      if !Truthy(invoiceId) {
        return Done;
      }
      var id := invoiceId.value;
      if id !in db.invoices {
        return Threw(RecordNotFound);
      }
      db.invoices := db.invoices[id := db.invoices[id].(id := id, status := Failed)];
      outcome := Done;
    }

    /** `confirmPayment`: the success handler runs only for a `succeeded` intent. */
    method ConfirmPayment(paymentIntentId: string, confirm: string -> Result<PaymentIntent, string>, now: int)
      returns (r: Result<PaymentIntent, string>)
      modifies db
      ensures db.calls == old(db.calls)
      ensures var answer := confirm(paymentIntentId);
        var before := Books(old(db.invoices), old(db.accounts));
        var after := Books(db.invoices, db.accounts);
        && (answer.Failure? ==> r == answer && after == before)
        && (answer.Success? && answer.value.status != SucceededStatus ==> r == answer && after == before)
        && (answer.Success? && answer.value.status == SucceededStatus ==>
              var step := PaymentSuccess(before, answer.value.metadata.invoiceId, now);
              && after == step.books
              && (step.outcome == Done ==> r == answer)
              && (step.outcome.Threw? ==> r == Failure(step.outcome.message)))
    {
      var answer := confirm(paymentIntentId);
      if answer.Failure? {
        return answer;
      }
      if answer.value.status == SucceededStatus {
        var outcome := HandlePaymentSuccess(answer.value.metadata.invoiceId, now);
        if outcome.Threw? {
          return Failure(outcome.message);
        }
      }
      r := answer;
    }

    /** `handleSubscriptionCreated`: performs `SubscriptionCreated` on the user table. */
    method HandleSubscriptionCreated(subscriptionId: string, customer: string, userId: Option<string>)
      returns (outcome: Outcome)
      modifies db
      ensures (outcome, db.accounts) == SubscriptionCreated(old(db.accounts), subscriptionId, customer, userId)
      ensures db.invoices == old(db.invoices) && db.calls == old(db.calls)
    {
      if !Truthy(userId) {
        return Done;
      }
      if userId.value !in db.accounts {
        return Threw(RecordNotFound);
      }
      var u := userId.value;
      db.accounts := db.accounts[u := db.accounts[u].(stripeSubscriptionId := Some(subscriptionId),
                                                      stripeCustomerId := Some(customer))];
      outcome := Done;
    }

    /** `handleSubscriptionDeleted`: performs `SubscriptionDeleted` on the user table. */
    method HandleSubscriptionDeleted(userId: Option<string>) returns (outcome: Outcome)
      modifies db
      ensures (outcome, db.accounts) == SubscriptionDeleted(old(db.accounts), userId)
      ensures db.invoices == old(db.invoices) && db.calls == old(db.calls)
    {
      if !Truthy(userId) {
        return Done;
      }
      if userId.value !in db.accounts {
        return Threw(RecordNotFound);
      }
      var u := userId.value;
      db.accounts := db.accounts[u := db.accounts[u].(stripeSubscriptionId := None)];
      outcome := Done;
    }

    /**
     * `createRefund`: needs the invoice and its intent id; refunds the given
     * amount in cents, or in full, then marks the invoice REFUNDED. No refund
     * amount is recorded and no balance changes.
     */
    method CreateRefund(invoiceId: string, amount: Option<real>, refund: RefundRequest -> Result<Refund, string>,
                        now: int)
      returns (r: Result<Refund, string>)
      modifies db
      ensures db.accounts == old(db.accounts) && db.calls == old(db.calls)
      ensures r.Failure? ==> db.invoices == old(db.invoices)
      ensures invoiceId !in old(db.invoices) ==> r == Failure(InvoiceNotFound(invoiceId))
      ensures invoiceId in old(db.invoices) && !Truthy(old(db.invoices)[invoiceId].paymentIntentId) ==>
        r == Failure(NoPaymentIntent(invoiceId))
      ensures invoiceId in old(db.invoices) && Truthy(old(db.invoices)[invoiceId].paymentIntentId) ==>
        var inv := old(db.invoices)[invoiceId];
        var answer := refund(RefundRequest(inv.paymentIntentId.value, RefundCents(amount)));
        && r == answer
        && (answer.Success? ==>
              db.invoices == old(db.invoices)[invoiceId := inv.(status := Refunded, refundedAt := Some(now))])
    {
      if invoiceId !in db.invoices {
        return Failure(InvoiceNotFound(invoiceId));
      }
      var inv := db.invoices[invoiceId];
      if !Truthy(inv.paymentIntentId) {
        return Failure(NoPaymentIntent(invoiceId));
      }
      var answer := refund(RefundRequest(inv.paymentIntentId.value, RefundCents(amount)));
      if answer.Failure? {
        return answer;
      }
      db.invoices := db.invoices[invoiceId := inv.(status := Refunded, refundedAt := Some(now))];
      r := answer;
    }
  }
}
