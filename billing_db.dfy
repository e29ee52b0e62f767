/**
 * The billing database as the billing services see it: invoices, user
 * accounts and call detail records, each table a map from id to record.
 * A Prisma `update` of a missing id throws; the services model that as a
 * `Threw` outcome or a `Failure` result.
 */
module BillingDb {
  import opened Wrappers

  datatype InvoiceStatus = Pending | Processing | Paid | Failed | Cancelled | Refunded

  datatype Invoice = Invoice(
    id: string,
    userId: string,
    period: string,
    amount: real,
    status: InvoiceStatus,
    dueDate: int,
    calls: nat,
    minutes: int,
    currency: string,
    paymentIntentId: Option<string>,
    paidAt: Option<int>,
    refundedAt: Option<int>,
    refundAmount: Option<real>,
    failureReason: Option<string>)

  /** The billing columns of a user. */
  datatype Account = Account(
    id: string,
    email: string,
    name: Option<string>,
    balance: real,
    stripeCustomerId: Option<string>,
    stripeSubscriptionId: Option<string>)

  /** A call detail record; `cost` is filled in by billing. */
  datatype CallRecord = CallRecord(
    id: string,
    userId: string,
    callerNumber: string,
    calleeNumber: string,
    callType: string,
    duration: int,
    startTime: int,
    cost: Option<real>)

  /** How an operation that returns nothing ended: normally, or by throwing. */
  datatype Outcome = Done | Threw(message: string)

  const RecordNotFound: string := "Record to update not found"

  /** The invoice and user tables, which is what payments and refunds change. */
  datatype Books = Books(invoices: map<string, Invoice>, accounts: map<string, Account>)

  /** The end of a handler that returns nothing, and the tables after it. */
  datatype Step = Step(outcome: Outcome, books: Books)

  /** Stores `inv` under its own id. */
  function SetInvoice(b: Books, inv: Invoice): Books {
    b.(invoices := b.invoices[inv.id := inv])
  }

  class Database {
    var invoices: map<string, Invoice>
    var accounts: map<string, Account>
    var calls: map<string, CallRecord>

    constructor (invoices: map<string, Invoice>, accounts: map<string, Account>, calls: map<string, CallRecord>)
      ensures this.invoices == invoices && this.accounts == accounts && this.calls == calls
    {
      this.invoices := invoices;
      this.accounts := accounts;
      this.calls := calls;
    }
  }

  /** `billingBalance: { increment: amount }` on an existing user; a missing user is left out. */
  function Credit(accounts: map<string, Account>, userId: string, amount: real): (r: map<string, Account>)
    ensures r.Keys == accounts.Keys
    ensures userId in accounts ==> r[userId].balance == accounts[userId].balance + amount
    ensures forall u :: u in accounts && u != userId ==> r[u] == accounts[u]
  {
    if userId in accounts then accounts[userId := accounts[userId].(balance := accounts[userId].balance + amount)]
    else accounts
  }

  /** `billingBalance: { decrement: amount }`. */
  function Debit(accounts: map<string, Account>, userId: string, amount: real): map<string, Account> {
    Credit(accounts, userId, -amount)
  }

  /** Two debits of the same amount take it off twice: decrements do not deduplicate. */
  lemma DebitTwice(accounts: map<string, Account>, userId: string, amount: real)
    requires userId in accounts
    ensures Debit(Debit(accounts, userId, amount), userId, amount)[userId].balance
         == accounts[userId].balance - 2.0 * amount
  {
  }

  /** A credit followed by a debit of the same amount restores the balance. */
  lemma CreditThenDebit(accounts: map<string, Account>, userId: string, amount: real)
    ensures Debit(Credit(accounts, userId, amount), userId, amount) == accounts
  {
    if userId in accounts {
      var a := accounts[userId];
      assert a.(balance := a.balance + amount).(balance := a.balance + amount + -amount) == a;
    }
  }
}
