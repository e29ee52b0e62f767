/**
 * The payment service (services/billing/src/services/payment-service.ts):
 * payment intents for pending invoices, the provider's webhook events,
 * refunds and the payment history. The webhook and refund effects are
 * stated as functions on the two tables they touch (`Books`); the service's
 * methods are proved to perform exactly those effects.
 */
module Payments {
  import opened Wrappers
  import opened Strings
  import opened Money
  import opened BillingDb
  import opened StripeApi

  const EventSucceeded: string := "payment_intent.succeeded"
  const EventFailed: string := "payment_intent.payment_failed"
  const EventCanceled: string := "payment_intent.canceled"
  const DefaultFailureReason: string := "Payment failed"
  const DefaultHistoryLimit: nat := 50

  function InvoiceNotFound(invoiceId: string): string { "Invoice not found: " + invoiceId }
  function NotPending(invoiceId: string): string { "Invoice " + invoiceId + " is not pending" }
  function IntentNotFound(invoiceId: string): string { "Invoice or payment intent not found: " + invoiceId }

  /** A webhook event: its type, the payment intent it carries and the intent's last error message. */
  datatype WebhookEvent = WebhookEvent(kind: string, intent: PaymentIntent, lastPaymentError: Option<string>)

  /** What `createPaymentIntent` returns to its caller. */
  datatype IntentReply = IntentReply(clientSecret: Option<string>, paymentIntentId: string)

  // ---------------------------------------------------------------- intents

  /** The intent `createPaymentIntent` asks for: the amount in cents, the currency lower-cased. */
  function IntentRequestFor(inv: Invoice): (req: IntentRequest)
    ensures inv.amount * 100.0 - 0.5 < req.amountCents as real <= inv.amount * 100.0 + 0.5
    ensures forall i :: 0 <= i < |req.currency| ==> !IsUpperAscii(req.currency[i])
    ensures req.currency == ToLowerAscii(inv.currency)
    ensures req.customer == None && req.description == None
    ensures req.metadata == Metadata(Some(inv.id), Some(inv.userId))
  {
    IntentRequest(Cents(inv.amount), ToLowerAscii(inv.currency), None,
                  Metadata(Some(inv.id), Some(inv.userId)), None)
  }

  // ---------------------------------------------------------------- webhooks

  /**
   * `handlePaymentSuccess`: PAID with the payment time, then the owner's
   * balance is decremented by the invoice amount. A missing invoice makes the
   * first update throw; a missing owner makes the second one throw after the
   * invoice was already marked paid.
   */
  function PaymentSuccess(b: Books, invoiceId: Option<string>, now: int): Step {
    if !Truthy(invoiceId) then Step(Done, b)
    else if invoiceId.value !in b.invoices then Step(Threw(RecordNotFound), b)
    else
      var paid := b.invoices[invoiceId.value].(id := invoiceId.value, status := Paid, paidAt := Some(now));
      var b' := SetInvoice(b, paid);
      if paid.userId !in b.accounts then Step(Threw(RecordNotFound), b')
      else Step(Done, b'.(accounts := Debit(b.accounts, paid.userId, paid.amount)))
  }

  /** `handlePaymentFailure`: FAILED with the provider's error message, or "Payment failed". */
  function PaymentFailure(b: Books, invoiceId: Option<string>, lastPaymentError: Option<string>): Step {
    if !Truthy(invoiceId) then Step(Done, b)
    else if invoiceId.value !in b.invoices then Step(Threw(RecordNotFound), b)
    else
      var reason := if Truthy(lastPaymentError) then lastPaymentError.value else DefaultFailureReason;
      Step(Done, SetInvoice(b, b.invoices[invoiceId.value].(id := invoiceId.value, status := Failed,
                                                            failureReason := Some(reason))))
  }

  /** `handlePaymentCancellation`: CANCELLED. */
  function PaymentCancellation(b: Books, invoiceId: Option<string>): Step {
    if !Truthy(invoiceId) then Step(Done, b)
    else if invoiceId.value !in b.invoices then Step(Threw(RecordNotFound), b)
    else Step(Done, SetInvoice(b, b.invoices[invoiceId.value].(id := invoiceId.value, status := Cancelled)))
  }

  /** `handleWebhook`: dispatch on the event type; any other type is only logged. */
  function Webhook(b: Books, e: WebhookEvent, now: int): Step {
    var invoiceId := e.intent.metadata.invoiceId;
    if e.kind == EventSucceeded then PaymentSuccess(b, invoiceId, now)
    else if e.kind == EventFailed then PaymentFailure(b, invoiceId, e.lastPaymentError)
    else if e.kind == EventCanceled then PaymentCancellation(b, invoiceId)
    else Step(Done, b)
  }

  function EventInvoice(e: WebhookEvent): Option<string> {
    e.intent.metadata.invoiceId
  }

  /** Events of other types, and events without an invoice id, change nothing. */
  lemma WebhookNoOps(b: Books, e: WebhookEvent, now: int)
    requires !Truthy(EventInvoice(e)) || e.kind !in {EventSucceeded, EventFailed, EventCanceled}
    ensures Webhook(b, e, now) == Step(Done, b)
  {
  }

  /** An event for an invoice that does not exist throws and changes nothing. */
  lemma WebhookUnknownInvoice(b: Books, e: WebhookEvent, now: int)
    requires Truthy(EventInvoice(e)) && EventInvoice(e).value !in b.invoices
    requires e.kind in {EventSucceeded, EventFailed, EventCanceled}
    ensures Webhook(b, e, now) == Step(Threw(RecordNotFound), b)
  {
  }

  /** The status each handled event type leads to. */
  function TargetStatus(kind: string): InvoiceStatus
    requires kind in {EventSucceeded, EventFailed, EventCanceled}
  {
    if kind == EventSucceeded then Paid else if kind == EventFailed then Failed else Cancelled
  }

  /** A handled event for a known invoice sets its status and touches no other invoice. */
  lemma WebhookSetsStatus(b: Books, e: WebhookEvent, now: int)
    requires Truthy(EventInvoice(e)) && EventInvoice(e).value in b.invoices
    requires e.kind in {EventSucceeded, EventFailed, EventCanceled}
    ensures var id := EventInvoice(e).value;
      var s := Webhook(b, e, now).books;
      && s.invoices.Keys == b.invoices.Keys
      && s.invoices[id].status == TargetStatus(e.kind)
      && s.invoices[id].amount == b.invoices[id].amount
      && s.invoices[id].userId == b.invoices[id].userId
      && (forall other :: other in b.invoices && other != id ==> s.invoices[other] == b.invoices[other])
  {
  }

  /** A successful payment records its time and takes the invoice amount off its owner's balance. */
  lemma SuccessDebitsOwner(b: Books, e: WebhookEvent, now: int)
    requires e.kind == EventSucceeded
    requires Truthy(EventInvoice(e)) && EventInvoice(e).value in b.invoices
    requires b.invoices[EventInvoice(e).value].userId in b.accounts
    ensures var inv := b.invoices[EventInvoice(e).value];
      var s := Webhook(b, e, now);
      && s.outcome == Done
      && s.books.invoices.Keys == b.invoices.Keys
      && s.books.invoices[EventInvoice(e).value].paidAt == Some(now)
      && s.books.accounts[inv.userId].balance == b.accounts[inv.userId].balance - inv.amount
      && (forall u :: u in b.accounts && u != inv.userId ==> s.books.accounts[u] == b.accounts[u])
  {
  }

  /** The failure reason is the provider's message when it has one, "Payment failed" otherwise. */
  lemma FailureReason(b: Books, e: WebhookEvent, now: int)
    requires e.kind == EventFailed
    requires Truthy(EventInvoice(e)) && EventInvoice(e).value in b.invoices
    ensures var reason := Webhook(b, e, now).books.invoices[EventInvoice(e).value].failureReason;
      && reason.Some?
      && (Truthy(e.lastPaymentError) ==> reason.value == e.lastPaymentError.value)
      && (!Truthy(e.lastPaymentError) ==> reason.value == DefaultFailureReason)
  {
  }

  /**
   * The success handler does not check the invoice's current status: the same
   * event delivered twice leaves the invoice as one delivery does but takes
   * the amount off the balance twice.
   */
  lemma {:induction false} RedeliveredSuccessDebitsTwice(b: Books, e: WebhookEvent, now: int)
    requires e.kind == EventSucceeded
    requires Truthy(EventInvoice(e)) && EventInvoice(e).value in b.invoices
    requires b.invoices[EventInvoice(e).value].id == EventInvoice(e).value
    requires b.invoices[EventInvoice(e).value].userId in b.accounts
    ensures var inv := b.invoices[EventInvoice(e).value];
      var once := Webhook(b, e, now).books;
      var twice := Webhook(once, e, now).books;
      && twice.invoices == once.invoices
      && twice.accounts[inv.userId].balance == b.accounts[inv.userId].balance - 2.0 * inv.amount
  {
    var id := EventInvoice(e).value;
    var inv := b.invoices[id];
    var paid := inv.(status := Paid, paidAt := Some(now));
    assert Webhook(b, e, now).books == Books(b.invoices[id := paid], Debit(b.accounts, inv.userId, inv.amount));
    DebitTwice(b.accounts, inv.userId, inv.amount);
  }

  // ---------------------------------------------------------------- refunds

  /** `amount || invoice.amount`: a missing or zero amount means the whole invoice. */
  function RefundedAmount(amount: Option<real>, inv: Invoice): (q: real)
    ensures TruthyAmount(amount) ==> q == amount.value
    ensures !TruthyAmount(amount) ==> q == inv.amount
  {
    if TruthyAmount(amount) then amount.value else inv.amount
  }

  datatype RefundStep = RefundStep(result: Result<Refund, string>, books: Books)

  /**
   * `refundPayment`: needs the invoice and its stored intent id; after the
   * provider accepts the refund the invoice becomes REFUNDED and the owner's
   * balance is decremented by the refunded quantity (a missing owner throws
   * after the invoice was updated).
   */
  function RefundPayment(b: Books, invoiceId: string, amount: Option<real>,
                         refund: RefundRequest -> Result<Refund, string>, now: int): RefundStep
  {
    if invoiceId !in b.invoices || !Truthy(b.invoices[invoiceId].paymentIntentId) then
      RefundStep(Failure(IntentNotFound(invoiceId)), b)
    else
      var inv := b.invoices[invoiceId];
      match refund(RefundRequest(inv.paymentIntentId.value, RefundCents(amount)))
      case Failure(err) => RefundStep(Failure(err), b)
      case Success(r) =>
        var q := RefundedAmount(amount, inv);
        var b' := SetInvoice(b, inv.(id := invoiceId, status := Refunded, refundedAt := Some(now),
                                     refundAmount := Some(q)));
        if inv.userId !in b.accounts then RefundStep(Failure(RecordNotFound), b')
        else RefundStep(Success(r), b'.(accounts := Debit(b.accounts, inv.userId, q)))
  }

  /** Without an invoice or a stored intent id the refund fails before contacting the provider. */
  lemma RefundNeedsIntent(b: Books, invoiceId: string, amount: Option<real>,
                          refund: RefundRequest -> Result<Refund, string>, now: int)
    requires invoiceId !in b.invoices || !Truthy(b.invoices[invoiceId].paymentIntentId)
    ensures RefundPayment(b, invoiceId, amount, refund, now) == RefundStep(Failure(IntentNotFound(invoiceId)), b)
  {
  }

  /** A completed refund records the refunded quantity and takes that same quantity off the balance. */
  lemma RefundDebitsRecordedAmount(b: Books, invoiceId: string, amount: Option<real>,
                                   refund: RefundRequest -> Result<Refund, string>, now: int)
    requires RefundPayment(b, invoiceId, amount, refund, now).result.Success?
    ensures invoiceId in b.invoices
    ensures var inv := b.invoices[invoiceId];
      var s := RefundPayment(b, invoiceId, amount, refund, now).books;
      && inv.userId in b.accounts
      && s.invoices[invoiceId].status == Refunded
      && s.invoices[invoiceId].refundAmount.Some?
      && s.accounts[inv.userId].balance
         == b.accounts[inv.userId].balance - s.invoices[invoiceId].refundAmount.value
      && refund(RefundRequest(inv.paymentIntentId.value, RefundCents(amount))).Success?
  {
  }

  /**
   * Both a paid invoice and its refund decrement the balance: a full refund
   * after a successful payment leaves the owner twice the amount lower, not
   * where the owner started.
   */
  lemma {:induction false} PaidThenFullyRefunded(b: Books, e: WebhookEvent, now: int,
                                                 refund: RefundRequest -> Result<Refund, string>, later: int)
    requires e.kind == EventSucceeded
    requires Truthy(EventInvoice(e)) && EventInvoice(e).value in b.invoices
    requires Truthy(b.invoices[EventInvoice(e).value].paymentIntentId)
    requires b.invoices[EventInvoice(e).value].userId in b.accounts
    requires var inv := b.invoices[EventInvoice(e).value];
      refund(RefundRequest(inv.paymentIntentId.value, None)).Success?
    ensures var id := EventInvoice(e).value;
      var inv := b.invoices[id];
      var s := RefundPayment(Webhook(b, e, now).books, id, None, refund, later);
      && s.result.Success?
      && s.books.invoices[id].status == Refunded
      && s.books.invoices[id].paidAt == Some(now)
      && s.books.accounts[inv.userId].balance == b.accounts[inv.userId].balance - 2.0 * inv.amount
  {
    var id := EventInvoice(e).value;
    var inv := b.invoices[id];
    var paid := inv.(id := id, status := Paid, paidAt := Some(now));
    var after := Webhook(b, e, now).books;
    assert after == Books(b.invoices[id := paid], Debit(b.accounts, inv.userId, inv.amount));
    assert after.invoices[id] == paid;
    DebitTwice(b.accounts, inv.userId, inv.amount);
  }

  // ---------------------------------------------------------------- history

  /** An invoice that appears in a user's payment history. */
  predicate InHistory(inv: Invoice, userId: string) {
    inv.userId == userId && (inv.status == Paid || inv.status == Refunded)
  }

  /**
   * `orderBy: { paidAt: 'desc' }`: newer payments first, and invoices without
   * a payment time before all others (the database's default for descending
   * order).
   */
  predicate NewerFirst(a: Invoice, b: Invoice) {
    a.paidAt.None? || (b.paidAt.Some? && a.paidAt.value >= b.paidAt.value)
  }

  predicate NewestFirst(s: seq<Invoice>) {
    forall i, j :: 0 <= i < j < |s| ==> NewerFirst(s[i], s[j])
  }

  function Select(rows: seq<Invoice>, userId: string): (r: seq<Invoice>)
    ensures forall i :: 0 <= i < |r| ==> InHistory(r[i], userId)
    ensures multiset(r) <= multiset(rows)
    ensures forall inv :: inv in rows && InHistory(inv, userId) ==> inv in r
    ensures forall inv :: multiset(r)[inv] == if InHistory(inv, userId) then multiset(rows)[inv] else 0
  {
    if rows == [] then []
    else
      var rest := Select(rows[1..], userId);
      assert rows == [rows[0]] + rows[1..];
      assert multiset(rows) == multiset([rows[0]]) + multiset(rows[1..]);
      if InHistory(rows[0], userId) then [rows[0]] + rest else rest
  }

  /** Places `x` before the first invoice it is newer than. */
  function Insert(x: Invoice, s: seq<Invoice>): (r: seq<Invoice>)
    ensures multiset(r) == multiset(s) + multiset{x}
  {
    if s == [] then [x]
    else if NewerFirst(x, s[0]) then [x] + s
    else
      assert s == [s[0]] + s[1..];
      [s[0]] + Insert(x, s[1..])
  }

  lemma NewerFirstTransitive(a: Invoice, b: Invoice, c: Invoice)
    requires NewerFirst(a, b) && NewerFirst(b, c)
    ensures NewerFirst(a, c)
  {
  }

  /** Inserting into a list ordered newest first keeps it ordered. */
  lemma {:induction false} InsertKeepsOrder(x: Invoice, s: seq<Invoice>)
    requires NewestFirst(s)
    ensures NewestFirst(Insert(x, s))
  {
    if s == [] {
    } else if NewerFirst(x, s[0]) {
      forall j | 0 <= j < |s|
        ensures NewerFirst(x, s[j])
      {
        if j > 0 {
          NewerFirstTransitive(x, s[0], s[j]);
        }
      }
    } else {
      var rest := Insert(x, s[1..]);
      InsertKeepsOrder(x, s[1..]);
      forall j | 0 <= j < |rest|
        ensures NewerFirst(s[0], rest[j])
      {
        assert rest[j] in multiset(rest);
        if rest[j] != x {
          assert rest[j] in multiset(s[1..]);
          var k :| 0 <= k < |s[1..]| && s[1..][k] == rest[j];
          assert s[k + 1] == rest[j];
        }
      }
      var r := [s[0]] + rest;
      forall i, j | 0 <= i < j < |r|
        ensures NewerFirst(r[i], r[j])
      {
        if i > 0 {
          assert r[i] == rest[i - 1] && r[j] == rest[j - 1];
        } else {
          assert r[j] == rest[j - 1];
        }
      }
    }
  }

  function SortNewestFirst(s: seq<Invoice>): (r: seq<Invoice>)
    ensures multiset(r) == multiset(s)
    ensures NewestFirst(r)
  {
    if s == [] then [] else
      assert s == [s[0]] + s[1..];
      InsertKeepsOrder(s[0], SortNewestFirst(s[1..]));
      Insert(s[0], SortNewestFirst(s[1..]))
  }

  /**
   * `getPaymentHistory(userId, limit)` over the invoice table `rows`; an
   * omitted `limit` is the default of 50.
   */
  function PaymentHistory(rows: seq<Invoice>, userId: string, limit: Option<nat>): seq<Invoice> {
    var n := limit.GetOr(DefaultHistoryLimit);
    var sorted := SortNewestFirst(Select(rows, userId));
    if n <= |sorted| then sorted[..n] else sorted
  }

  /** Cutting a newest-first list after `n` leaves out only entries no newer than the kept ones. */
  lemma TakeNewest(all: seq<Invoice>, n: nat)
    requires NewestFirst(all)
    ensures var h := if n <= |all| then all[..n] else all;
      && h == all[..|h|]
      && |h| == Min(n, |all|)
      && NewestFirst(h)
      && (forall i, j :: 0 <= i < |h| <= j < |all| ==> NewerFirst(h[i], all[j]))
      && (forall inv :: inv in all && inv !in h ==>
            |h| == n && forall i :: 0 <= i < |h| ==> NewerFirst(h[i], inv))
  {
    var h := if n <= |all| then all[..n] else all;
    forall inv | inv in all && inv !in h
      ensures |h| == n && forall i :: 0 <= i < |h| ==> NewerFirst(h[i], inv)
    {
      var k :| 0 <= k < |all| && all[k] == inv;
      assert k >= |h|;
    }
  }

  /**
   * The history is the newest-first ordering of exactly the user's paid and
   * refunded invoices, cut after `limit` (50 when omitted): it holds only
   * such invoices, as many as there are up to the limit, and every such
   * invoice it leaves out is no newer than each one it lists.
   */
  lemma HistoryIsNewestPaidInvoices(rows: seq<Invoice>, userId: string, limit: Option<nat>)
    ensures var h := PaymentHistory(rows, userId, limit);
      var n := limit.GetOr(DefaultHistoryLimit);
      var all := SortNewestFirst(Select(rows, userId));
      && (forall inv :: multiset(all)[inv] == if InHistory(inv, userId) then multiset(rows)[inv] else 0)
      && h == all[..|h|]
      && |h| == Min(n, |all|)
      && NewestFirst(h)
      && (forall i :: 0 <= i < |h| ==> InHistory(h[i], userId) && h[i] in rows)
      && (forall inv :: inv in rows && InHistory(inv, userId) && inv !in h ==>
            |h| == n && forall i :: 0 <= i < |h| ==> NewerFirst(h[i], inv))
      && (forall i, j :: 0 <= i < |h| <= j < |all| ==> NewerFirst(h[i], all[j]))
  {
    var sel := Select(rows, userId);
    var all := SortNewestFirst(sel);
    var h := PaymentHistory(rows, userId, limit);
    TakeNewest(all, limit.GetOr(DefaultHistoryLimit));
    forall i | 0 <= i < |h|
      ensures InHistory(h[i], userId) && h[i] in rows
    {
      assert h[i] == all[i];
      assert all[i] in multiset(sel);
      assert h[i] in sel;
    }
    forall inv | inv in rows && InHistory(inv, userId)
      ensures inv in all
    {
      assert inv in multiset(all);
    }
  }

  // ---------------------------------------------------------------- the service

  class PaymentService {
    const db: Database

    constructor (db: Database)
      ensures this.db == db
    {
      this.db := db;
    }

    /**
     * `createPaymentIntent`: only a PENDING invoice gets an intent; the
     * invoice stores the intent id and keeps its status.
     */
    method CreatePaymentIntent(invoiceId: string, createIntent: IntentRequest -> Result<PaymentIntent, string>)
      returns (r: Result<IntentReply, string>)
      modifies db
      ensures db.accounts == old(db.accounts) && db.calls == old(db.calls)
      ensures r.Failure? ==> db.invoices == old(db.invoices)
      ensures invoiceId !in old(db.invoices) ==> r == Failure(InvoiceNotFound(invoiceId))
      ensures invoiceId in old(db.invoices) && old(db.invoices)[invoiceId].status != Pending ==>
        r == Failure(NotPending(invoiceId))
      ensures r.Success? <==>
        invoiceId in old(db.invoices) && old(db.invoices)[invoiceId].status == Pending
        && createIntent(IntentRequestFor(old(db.invoices)[invoiceId])).Success?
      ensures (invoiceId in old(db.invoices) && old(db.invoices)[invoiceId].status == Pending
               && createIntent(IntentRequestFor(old(db.invoices)[invoiceId])).Failure?) ==>
        r == Failure(createIntent(IntentRequestFor(old(db.invoices)[invoiceId])).error)
      ensures r.Success? ==>
        var inv := old(db.invoices)[invoiceId];
        var intent := createIntent(IntentRequestFor(inv)).value;
        && r.value == IntentReply(intent.clientSecret, intent.id)
        && db.invoices == old(db.invoices)[invoiceId := inv.(paymentIntentId := Some(intent.id))]
        && db.invoices[invoiceId].status == Pending
    {
      if invoiceId !in db.invoices {
        return Failure(InvoiceNotFound(invoiceId));
      }
      var inv := db.invoices[invoiceId];
      if inv.status != Pending {
        return Failure(NotPending(invoiceId));
      }
      match createIntent(IntentRequestFor(inv))
      case Failure(err) =>
        r := Failure(err);
      case Success(intent) =>
        db.invoices := db.invoices[invoiceId := inv.(paymentIntentId := Some(intent.id))];
        r := Success(IntentReply(intent.clientSecret, intent.id));
    }

    /** `handleWebhook`: performs `Webhook` on the invoice and user tables. */
    method HandleWebhook(e: WebhookEvent, now: int) returns (outcome: Outcome)
      modifies db
      ensures Step(outcome, Books(db.invoices, db.accounts)) == Webhook(Books(old(db.invoices), old(db.accounts)), e, now)
      ensures db.calls == old(db.calls)
    {
      var invoiceId := e.intent.metadata.invoiceId;
      if e.kind !in {EventSucceeded, EventFailed, EventCanceled} || !Truthy(invoiceId) {
        return Done;
      }
      var id := invoiceId.value;
      if id !in db.invoices {
        return Threw(RecordNotFound);
      }
      var inv := db.invoices[id];
      if e.kind == EventSucceeded {
        var paid := inv.(id := id, status := Paid, paidAt := Some(now));
        db.invoices := db.invoices[id := paid];
        if paid.userId !in db.accounts {
          return Threw(RecordNotFound);
        }
        db.accounts := Debit(db.accounts, paid.userId, paid.amount);
      } else if e.kind == EventFailed {
        var reason := if Truthy(e.lastPaymentError) then e.lastPaymentError.value else DefaultFailureReason;
        db.invoices := db.invoices[id := inv.(id := id, status := Failed, failureReason := Some(reason))];
      } else {
        db.invoices := db.invoices[id := inv.(id := id, status := Cancelled)];
      }
      outcome := Done;
    }

    /** `refundPayment`: performs `RefundPayment` on the invoice and user tables. */
    method Refund(invoiceId: string, amount: Option<real>, refund: RefundRequest -> Result<Refund, string>,
                  now: int)
      returns (r: Result<Refund, string>)
      modifies db
      ensures RefundStep(r, Books(db.invoices, db.accounts))
           == RefundPayment(Books(old(db.invoices), old(db.accounts)), invoiceId, amount, refund, now)
      ensures db.calls == old(db.calls)
    {
      if invoiceId !in db.invoices || !Truthy(db.invoices[invoiceId].paymentIntentId) {
        return Failure(IntentNotFound(invoiceId));
      }
      var inv := db.invoices[invoiceId];
      var answer := refund(RefundRequest(inv.paymentIntentId.value, RefundCents(amount)));
      if answer.Failure? {
        return Failure(answer.error);
      }
      var q := RefundedAmount(amount, inv);
      db.invoices := db.invoices[invoiceId := inv.(id := invoiceId, status := Refunded, refundedAt := Some(now),
                                                  refundAmount := Some(q))];
      if inv.userId !in db.accounts {
        return Failure(RecordNotFound);
      }
      db.accounts := Debit(db.accounts, inv.userId, q);
      r := Success(answer.value);
    }
  }
}
