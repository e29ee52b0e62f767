/**
 * The invoice service (services/billing/src/services/invoice-service.ts):
 * the monthly invoice built from a user's calls, the call table of its PDF
 * (the first twenty calls, one row every 20 points with a page break below
 * 700), the invoice e-mail and the payment reminder. Drawing, date
 * formatting and the HTML templates are not modelled; the PDF is the list of
 * its call rows and where they land.
 */
module Invoicing {
  import opened Wrappers
  import opened Strings
  import opened BillingDb
  import opened Billing

  const DueDays: int := 15
  const MsPerDay: int := 24 * 60 * 60 * 1000
  const InvoiceCurrency: string := "USD"
  const DefaultSender: string := "billing@callstack.com"
  /** What the database reports when a created invoice's id is already taken. */
  const IdTaken: string := "Unique constraint failed on the fields: (`id`)"

  function UserNotFound(userId: string): string { "User not found: " + userId }

  // ---------------------------------------------------------------- the invoice record

  /** `startDate.toISOString().substring(0, 7)`: `YYYY-MM` of an ISO timestamp. */
  function Period(startIso: string): (period: string)
    ensures |startIso| >= 7 ==> |period| == 7
    ensures StartsWith(startIso, period)
  {
    Take(startIso, 7)
  }

  /** Fifteen days after the end of the period, in milliseconds. */
  function DueDate(endMs: int): (due: int)
    ensures due - endMs == 1296000000
  {
    endMs + DueDays * MsPerDay
  }

  /** `Math.floor(totalMinutes)` with `totalMinutes = Σ duration / 60`. */
  function WholeMinutes(totalSeconds: int): (m: int)
    ensures 60 * m <= totalSeconds < 60 * m + 60
  {
    (totalSeconds as real / 60.0).Floor
  }

  /** The floor of the real quotient is the integer quotient. */
  lemma WholeMinutesIsIntegerQuotient(totalSeconds: int)
    ensures WholeMinutes(totalSeconds) == totalSeconds / 60
  {
    var q := totalSeconds / 60;
    assert 60 * q <= totalSeconds < 60 * q + 60;
    assert q as real <= totalSeconds as real / 60.0 < q as real + 1.0;
  }

  /** The record `generateMonthlyInvoice` creates for the user's calls of the period. */
  function NewInvoice(id: string, userId: string, calls: seq<CallRecord>, startIso: string, endMs: int): Invoice {
    Invoice(id, userId, Period(startIso), TotalCost(calls), Pending, DueDate(endMs), |calls|,
            WholeMinutes(TotalDuration(calls)), InvoiceCurrency, None, None, None, None, None)
  }

  /** A new invoice states the same totals as the billing summary of the same calls. */
  lemma InvoiceAgreesWithSummary(id: string, userId: string, calls: seq<CallRecord>, startIso: string, endMs: int)
    ensures var inv := NewInvoice(id, userId, calls, startIso, endMs);
      var s := Summarize(calls);
      && inv.amount == s.totalCost
      && inv.calls == s.totalCalls
      && inv.minutes as real <= s.totalMinutes < inv.minutes as real + 1.0
      && inv.status == Pending && inv.currency == InvoiceCurrency
  {
    var inv := NewInvoice(id, userId, calls, startIso, endMs);
    var s := Summarize(calls);
    assert 60.0 * inv.minutes as real <= s.totalMinutes * 60.0 < 60.0 * inv.minutes as real + 60.0;
  }

  // ---------------------------------------------------------------- the PDF call table

  const MaxPdfRows: nat := 20
  const FirstRowY: int := 310
  const RowStep: int := 20
  const PageBottom: int := 700
  const PageTop: int := 50

  /** The page (0 for the first) and the vertical position of the text cursor. */
  datatype Cursor = Cursor(page: nat, y: int)

  /** Before a row: a cursor below the bottom limit moves to the top of a new page. */
  function BreakIfFull(c: Cursor): Cursor {
    if c.y > PageBottom then Cursor(c.page + 1, PageTop) else c
  }

  /** The cursor before row `k` is drawn, following the loop from its start. */
  function CursorBefore(k: nat): Cursor {
    if k == 0 then Cursor(0, FirstRowY)
    else
      var at := BreakIfFull(CursorBefore(k - 1));
      Cursor(at.page, at.y + RowStep)
  }

  /** Where row `k` is drawn. */
  function RowPosition(k: nat): Cursor {
    BreakIfFull(CursorBefore(k))
  }

  /** Every row is drawn between the top margin and the bottom limit, however many rows there are. */
  lemma {:induction false} RowsStayOnPage(k: nat)
    ensures PageTop <= RowPosition(k).y <= PageBottom
    ensures PageTop <= CursorBefore(k).y <= PageBottom + RowStep
  {
    if k > 0 {
      RowsStayOnPage(k - 1);
    }
  }

  /** Up to the cap the cursor moves straight down the first page. */
  lemma {:induction false} CursorBeforeWithinCap(k: nat)
    requires k <= MaxPdfRows
    ensures CursorBefore(k) == Cursor(0, FirstRowY + RowStep * k)
  {
    if k > 0 {
      CursorBeforeWithinCap(k - 1);
    }
  }

  /** With at most twenty rows no page break happens: row `k` sits at `310 + 20k <= 690`. */
  lemma NoPageBreakWithinCap(k: nat)
    requires k < MaxPdfRows
    ensures RowPosition(k) == Cursor(0, FirstRowY + RowStep * k)
    ensures RowPosition(k).y <= 690
  {
    CursorBeforeWithinCap(k);
  }

  /** `Math.trunc(a / b)`: the quotient rounded toward zero. */
  function JsQuot(a: int, b: int): int
    requires b > 0
  {
    if a >= 0 then a / b else -((-a) / b)
  }

  /** JavaScript's `%`, whose remainder takes the sign of the dividend. */
  function JsRem(a: int, b: int): (r: int)
    requires b > 0
    ensures a >= 0 ==> 0 <= r < b
    ensures a < 0 ==> -b < r <= 0
    ensures a == b * JsQuot(a, b) + r
  {
    if a >= 0 then a % b else
      var m := -a;
      assert m == b * (m / b) + m % b;
      assert b * -(m / b) == -(b * (m / b));
      -(m % b)
  }

  /** A call's duration as shown: `Math.floor(d / 60)` minutes and `d % 60` seconds. */
  function ShownMinutes(duration: int): int { duration / 60 }

  /** For a duration that is not negative the two shown parts add back up to the duration. */
  lemma ShownDurationAddsUp(duration: int)
    requires duration >= 0
    ensures 60 * ShownMinutes(duration) + JsRem(duration, 60) == duration
    ensures 0 <= JsRem(duration, 60) < 60
  {
  }

  /**
   * For a negative duration that is not a whole number of minutes, the
   * floored minutes and the truncated seconds disagree by a minute.
   */
  lemma NegativeDurationShownAMinuteShort(duration: int)
    requires duration < 0 && duration % 60 != 0
    ensures 60 * ShownMinutes(duration) + JsRem(duration, 60) == duration - 60
  {
    var q := (-duration) / 60;
    var s := (-duration) % 60;
    assert -duration == 60 * q + s && 0 < s < 60;
    assert duration == 60 * (-q - 1) + (60 - s);
    assert duration / 60 == -q - 1;
  }

  /** One line of the call table. */
  datatype PdfRow = PdfRow(number: nat, page: nat, y: int, callerNumber: string, calleeNumber: string,
                           minutes: int, seconds: int, cost: real)

  function RowFor(c: CallRecord, k: nat): PdfRow {
    var at := RowPosition(k);
    PdfRow(k + 1, at.page, at.y, c.callerNumber, c.calleeNumber, ShownMinutes(c.duration),
           JsRem(c.duration, 60), CostOrZero(c))
  }

  /**
   * The table loop of `generateInvoicePDF`: the first twenty calls, each
   * drawn at the cursor after a possible page break, the cursor then moving
   * down one row.
   */
  method LayoutCallRows(calls: seq<CallRecord>) returns (rows: seq<PdfRow>)
    ensures |rows| == Min(|calls|, MaxPdfRows)
    ensures forall k :: 0 <= k < |rows| ==> rows[k] == RowFor(calls[k], k)
    ensures forall k :: 0 <= k < |rows| ==> rows[k].page == 0 && rows[k].y == FirstRowY + RowStep * k
  {
    var shown := if |calls| <= MaxPdfRows then calls else calls[..MaxPdfRows];
    var page: nat := 0;
    var y := FirstRowY;
    rows := [];
    for index := 0 to |shown|
      invariant |rows| == index
      invariant Cursor(page, y) == CursorBefore(index)
      invariant forall k :: 0 <= k < index ==> rows[k] == RowFor(calls[k], k)
    {
      if y > PageBottom {
        page := page + 1;
        y := PageTop;
      }
      var call := shown[index];
      rows := rows + [PdfRow(index + 1, page, y, call.callerNumber, call.calleeNumber, call.duration / 60,
                             JsRem(call.duration, 60), CostOrZero(call))];
      y := y + RowStep;
    }
    forall k | 0 <= k < |rows|
      ensures rows[k].page == 0 && rows[k].y == FirstRowY + RowStep * k
    {
      NoPageBreakWithinCap(k);
    }
  }

  // ---------------------------------------------------------------- mail

  datatype Attachment = Attachment(filename: string, rows: seq<PdfRow>)
  datatype Mail = Mail(from: string, to: string, subject: string, attachment: Option<Attachment>)

  /** `process.env.SMTP_FROM || 'billing@callstack.com'`: an unset or empty setting falls back to the default. */
  function Sender(smtpFrom: Option<string>): (from: string)
    ensures Truthy(smtpFrom) ==> from == smtpFrom.value
    ensures !Truthy(smtpFrom) ==> from == DefaultSender
    ensures from != ""
  {
    if Truthy(smtpFrom) then smtpFrom.value else DefaultSender
  }

  function InvoiceMail(smtpFrom: Option<string>, email: string, inv: Invoice, rows: seq<PdfRow>): Mail {
    Mail(Sender(smtpFrom), email, "CallStack Invoice " + inv.id,
         Some(Attachment("invoice-" + inv.id + ".pdf", rows)))
  }

  function ReminderMail(smtpFrom: Option<string>, email: string, inv: Invoice): Mail {
    Mail(Sender(smtpFrom), email, "Payment Reminder: Invoice " + inv.id, None)
  }

  /**
   * `sendInvoiceEmail`: fails for an unknown owner and passes a sending
   * failure on; otherwise the mail goes to the owner's address with the PDF.
   */
  function SendInvoiceEmail(smtpFrom: Option<string>, accounts: map<string, Account>, inv: Invoice, rows: seq<PdfRow>,
                            send: Mail -> Result<(), string>): (r: Result<Mail, string>)
    ensures inv.userId !in accounts ==> r == Failure(UserNotFound(inv.userId))
    ensures r.Success? <==> inv.userId in accounts && send(InvoiceMail(smtpFrom, accounts[inv.userId].email, inv, rows)).Success?
    ensures r.Success? ==> r.value.from == Sender(smtpFrom) && r.value.to == accounts[inv.userId].email && r.value.attachment == Some(Attachment("invoice-" + inv.id + ".pdf", rows))
    ensures inv.userId in accounts && r.Failure? ==> r.error == send(InvoiceMail(smtpFrom, accounts[inv.userId].email, inv, rows)).error
  {
    if inv.userId !in accounts then Failure(UserNotFound(inv.userId))
    else
      var mail := InvoiceMail(smtpFrom, accounts[inv.userId].email, inv, rows);
      match send(mail)
      case Failure(e) => Failure(e)
      case Success(_) => Success(mail)
  }

  /**
   * `sendPaymentReminder`: every failure is logged and swallowed, so there is
   * no error outcome; the result is the mail that went out, if any.
   */
  function SendPaymentReminder(smtpFrom: Option<string>, accounts: map<string, Account>, inv: Invoice, send: Mail -> Result<(), string>)
    : (sent: Option<Mail>)
    ensures sent.Some? <==> inv.userId in accounts && send(ReminderMail(smtpFrom, accounts[inv.userId].email, inv)).Success?
    ensures sent.Some? ==> sent.value.from == Sender(smtpFrom) && sent.value.to == accounts[inv.userId].email && sent.value.attachment.None?
  {
    if inv.userId !in accounts then None
    else
      var mail := ReminderMail(smtpFrom, accounts[inv.userId].email, inv);
      if send(mail).Success? then Some(mail) else None
  }

  // ---------------------------------------------------------------- the service

  class InvoiceService {
    const db: Database

    constructor (db: Database)
      ensures this.db == db
    {
      this.db := db;
    }

    /**
     * `generateMonthlyInvoice` for the calls in `rows` (the call table) of
     * user `userId` that started within `[startDate, endDate]`. `startIso` is
     * `startDate` as an ISO string, `newId` the generated invoice id and
   * `smtpFrom` the `SMTP_FROM` setting.
     * Nothing is created when the total is not positive; a failed e-mail
     * fails the operation after the invoice was created.
     */
    method GenerateMonthlyInvoice(userId: string, rows: seq<CallRecord>, startDate: int, endDate: int,
                                  startIso: string, newId: string, smtpFrom: Option<string>,
                                  send: Mail -> Result<(), string>)
      returns (r: Result<Option<Invoice>, string>)
      modifies db
      ensures db.accounts == old(db.accounts) && db.calls == old(db.calls)
      ensures var calls := SelectCalls(rows, userId, startDate, endDate);
        && (TotalCost(calls) <= 0.0 ==> r == Success(None) && db.invoices == old(db.invoices))
        && (TotalCost(calls) > 0.0 && newId in old(db.invoices) ==>
              r == Failure(IdTaken) && db.invoices == old(db.invoices))
        && (TotalCost(calls) > 0.0 && newId !in old(db.invoices) ==>
              var inv := NewInvoice(newId, userId, calls, startIso, endDate);
              && db.invoices == old(db.invoices)[newId := inv]
              && exists pdf: seq<PdfRow> ::
                   |pdf| == Min(|calls|, MaxPdfRows)
                   && (forall k :: 0 <= k < |pdf| ==> pdf[k] == RowFor(calls[k], k))
                   && match SendInvoiceEmail(smtpFrom, old(db.accounts), inv, pdf, send)
                      case Failure(e) => r == Failure(e)
                      case Success(_) => r == Success(Some(inv)))
    {
      var calls := SelectCalls(rows, userId, startDate, endDate);
      if TotalCost(calls) <= 0.0 {
        return Success(None);
      }
      if newId in db.invoices {
        return Failure(IdTaken);
      }
      var inv := NewInvoice(newId, userId, calls, startIso, endDate);
      db.invoices := db.invoices[newId := inv];
      var pdf := LayoutCallRows(calls);
      match SendInvoiceEmail(smtpFrom, db.accounts, inv, pdf, send)
      case Failure(e) =>
        r := Failure(e);
      case Success(_) =>
        r := Success(Some(inv));
    }
  }
}
