# CallStack VoIP back end: session directory, call signaling, SIP accounts and billing

This project models, in Dafny, the server-side decision logic of the CallStack
VoIP platform. It covers three services.

**Signaling** (`services/signaling`)
- On connect, a connection is authenticated from its handshake token. It then
  registers `user:<id>:socket` in a key-value store with a one-hour time-to-live;
  disconnect deletes that key.
- Call offers, answers, ICE candidates and hang-ups are relayed to the target
  user's connection, or answered with `call-error`, or dropped.
- Presence is stored under `user:<id>:status` and broadcast to the other
  connections.
- The store is a map from key to (value, expiry) under an abstract clock.
- The emitted events are an outbox of (origin, destination, message) triples.
  A destination is the sender, a room (another connection's id), or everyone
  else.
- SDP and ICE payloads are type parameters that are never inspected.

**SIP authentication** (`services/sip-auth`)
- The bearer-token middleware and the role gate.
- Register, login, profile and password change over a user table.
- The sixteen-character SIP password drawn from 62 letters and digits, and the
  `sip_` + first-eight-characters SIP user name.

**Billing** (`services/billing`)
- The per-call cost formula, with `Math.round(x*100)/100` as exact round-half-up.
- The international-number test.
- Billing call records into user balances, one call and one daily batch at a
  time.
- The usage summary, rate updates and the scheduler's job list.
- Payment intents, the provider's webhooks, refunds, and the payment history
  (newest first, limited).
- The processor's on-demand customers, PROCESSING intents, confirmation and
  subscriptions.
- The monthly invoice and its totals, period and due date.
- The PDF call table: its first-twenty-rows cap and page layout.
- The e-mail error policy.

**Conventions**
- Each database table is a map in a `Database` object that the services'
  methods change.
- A Prisma update of a missing record becomes a `Threw`/`Failure` outcome.
- Stripe, bcrypt, JWT, the mailer, the clock and generated ids are parameters.
- Money is exact `real`.
- `Signaling.SignalingServer.Tick` (time passing, which expires store entries) and `Signaling.SignalingServer.SetStoreReachable` (the store going down or coming back) are steps of the environment, not of the source.

**Behaviours the model records**
- Socket handshake: a truthy `auth.token` wins over the header. The header loses
  its first `"Bearer "` wherever that occurs.
- `authenticateToken` takes the second space-separated field of the header,
  whatever the scheme (`SipMiddleware.AnySchemeAccepted`).
- Login answers an unknown email, an inactive user and a wrong password alike.
- The payment service's success webhook does not check the invoice's state.
  - A redelivered event debits the balance again
    (`Payments.RedeliveredSuccessDebitsTwice`).
  - A full refund after a payment decrements the balance a second time instead
    of restoring it (`Payments.PaidThenFullyRefunded`).
- The payment processor's handlers never touch a balance, and its refund
  records no refund amount.
- A negative call duration is shown a minute short in the PDF, because the
  minutes are floored and the seconds truncated
  (`Invoicing.NegativeDurationShownAMinuteShort`).

**Where the code is followed over the documented design**
- The documented design says a disconnect removes the session only if it still
  names the closing connection. The code deletes it unconditionally; see
  Findings.
- The documented presence values are online/away/busy. The handler stores
  whatever status it is sent.

## Model

| member | source | states |
|---|---|---|
| KeyValueStore.Get | services/signaling/src/handlers/socket.ts:19 | a read yields a value exactly when the key is present and not expired, and that value is the stored one |
| KeyValueStore.SetEx | services/signaling/src/index.ts:72-76 | `SETEX` adds or rewrites exactly one key; every other key keeps its entry |
| KeyValueStore.Del | services/signaling/src/index.ts:85 | `DEL` removes exactly the one key; every other entry is kept |
| KeyValueStore.GetAfterSetEx | services/signaling/src/index.ts:72-76 | a written key reads back its value until its TTL runs out, then reads as missing |
| KeyValueStore.GetAfterSetExOther | services/signaling/src/handlers/socket.ts:117-121 | writing one key leaves every other key's reading unchanged |
| KeyValueStore.GetAfterDel | services/signaling/src/index.ts:85 | a deleted key reads as missing at any time |
| KeyValueStore.GetAfterDelOther | services/signaling/src/index.ts:85 | deleting one key leaves every other key's reading unchanged |
| KeyValueStore.LastWriteWins | services/signaling/src/index.ts:72-76 | of two writes to one key, the later determines every later read |
| SocketAuth.AuthTokenPreferred | services/signaling/src/middleware/auth.ts:14 | a non-empty `auth.token` is the token, whatever the Authorization header holds |
| SocketAuth.BearerHeaderPresentsToken | services/signaling/src/middleware/auth.ts:14 | without `auth.token`, `Authorization: Bearer <t>` yields `<t>` (RFC 6750 section 2.1) |
| Strings.RemoveFirstOfPrefix | services/signaling/src/middleware/auth.ts:14 | `replace` of a prefix occurrence removes exactly that prefix |
| Strings.RemoveFirstAbsent | services/signaling/src/middleware/auth.ts:14 | a header without "Bearer " is passed on as it is |
| SocketAuth.Authenticate | services/signaling/src/middleware/auth.ts:12-32 | "Authentication token required" iff no truthy token; "Invalid authentication token" iff verification fails; success iff it verifies, yielding its claims |
| SocketAuth.AuthenticateSocket | services/signaling/src/middleware/auth.ts:16-31 | on error `next` gets the message and `socket.data` is unchanged; on success `userId`/`email` become the claims and `next()` gets no error |
| Signaling.SocketKeyInjective | services/signaling/src/index.ts:73 | distinct users have distinct session keys |
| Signaling.StatusKeyInjective | services/signaling/src/handlers/socket.ts:118 | distinct users have distinct status keys |
| Signaling.SessionAndStatusKeysDiffer | services/signaling/src/index.ts:73 | no session key is a status key, so the two kinds of write never collide |
| Signaling.ReadStatus | services/signaling/src/handlers/socket.ts:141-146 | the status read is never empty; a live non-empty stored status is returned as is, anything else reads "offline" |
| Signaling.RegisterThenLookup | services/signaling/src/index.ts:72-76 | after connecting, the user resolves to that connection for 3600 s, and to nothing after |
| Signaling.SecondRegistrationWins | services/signaling/src/index.ts:72-76 | a later connection of the same user supersedes the earlier one |
| Signaling.UnregisterKeepsStatus | services/signaling/src/index.ts:85 | disconnect never changes any user's status entry |
| Signaling.UnregisterKeepsOtherSessions | services/signaling/src/index.ts:85 | disconnect leaves every other user's session as it was |
| Signaling.StatusWriteKeepsSessions | services/signaling/src/handlers/socket.ts:117-121 | a status update never changes any session entry, so no relay target moves |
| Signaling.StatusRoundTrip | services/signaling/src/handlers/socket.ts:117-121 | a stored non-empty status reads back until it expires, then reads "offline" |
| Signaling.StaleDisconnectEvictsNewerSession | services/signaling/src/index.ts:81-86 | as written: the older connection's disconnect deletes the newer connection's session |
| Signaling.GuardedDisconnectKeepsNewerSession | services/signaling/src/index.ts:81-86 | with the ownership guard, a stale disconnect keeps the newer session |
| Signaling.GuardedDisconnectRemovesOwnSession | services/signaling/src/index.ts:81-86 | with the guard, a connection that still owns its session removes it |
| Signaling.ToSenderReachesOnlySender | services/signaling/src/handlers/socket.ts:22 | `socket.emit` reaches exactly the sender |
| Signaling.ToRoomReachesOnlyThatSocket | services/signaling/src/handlers/socket.ts:27 | `socket.to(id).emit` reaches exactly connection `id` when that is not the sender |
| Signaling.RelayToSelfReachesNobody | services/signaling/src/handlers/socket.ts:27 | a relay addressed to the sender's own connection reaches no one |
| Signaling.SignalingServer.Resolve | services/signaling/src/handlers/socket.ts:19-24 | a target resolves exactly to its live, non-empty session value, and to nothing when there is none |
| Signaling.SignalingServer.Start | services/signaling/src/index.ts:91-101 | the server listens only if the store connected; otherwise it exits without listening |
| Signaling.SignalingServer.Accept | services/signaling/src/index.ts:65-79 | authentication runs first; a rejected connection leaves the store and socket data unchanged; an accepted one registers its session |
| Signaling.SignalingServer.Disconnect | services/signaling/src/index.ts:81-86 | as written: deletes the user's session key whatever it points at |
| Signaling.SignalingServer.DisconnectGuarded | services/signaling/src/index.ts:81-86 | corrected: deletes the session only while it names this connection |
| Signaling.SignalingServer.Call | services/signaling/src/handlers/socket.ts:14-37 | exactly one event: `offer {offer, from}` to the target's connection, or `call-error` "User not available" / "Failed to initiate call" to the sender; the store is unchanged |
| Signaling.SignalingServer.Answer | services/signaling/src/handlers/socket.ts:40-63 | exactly one event: `answer {answer, from}` to the target, or `call-error` to the sender; the store is unchanged |
| Signaling.SignalingServer.RelayIceCandidate | services/signaling/src/handlers/socket.ts:66-86 | the candidate goes to the target when it resolves; otherwise, or when the lookup fails, nothing is emitted |
| Signaling.SignalingServer.EndCall | services/signaling/src/handlers/socket.ts:89-109 | `call-ended {from}` to a resolved target, silence otherwise; the store is unchanged |
| Signaling.SignalingServer.StatusUpdate | services/signaling/src/handlers/socket.ts:112-133 | stores the status for 3600 s and broadcasts `user-status-changed` to the others; a failed write broadcasts nothing |
| Signaling.SignalingServer.GetUserStatus | services/signaling/src/handlers/socket.ts:136-154 | replies with the stored status, or "offline" when it is absent or the lookup fails |
| Strings.SecondField | services/sip-auth/src/middleware/auth.ts:23 | `split(' ')[1]` is absent exactly when the header has no space |
| Strings.JoinSplit | services/sip-auth/src/middleware/auth.ts:23 | joining the fields of `split` rebuilds the string |
| SipMiddleware.BearerHeaderToken | services/sip-auth/src/middleware/auth.ts:22-23 | `Bearer <token>` yields the token (RFC 6750 section 2.1) |
| SipMiddleware.AnySchemeAccepted | services/sip-auth/src/middleware/auth.ts:22-23 | any one-word scheme in front of the token is accepted |
| SipMiddleware.NoSpaceNoToken | services/sip-auth/src/middleware/auth.ts:22-27 | a header without a space carries no token |
| SipMiddleware.Authorize | services/sip-auth/src/middleware/auth.ts:21-50 | 401 "Access token required" iff no token; 401 "Invalid token" iff verification fails; 401 "Invalid or inactive user" iff the user is missing or inactive; success iff a token verifies to an existing active user, and yields that user's record |
| SipMiddleware.AuthenticateToken | services/sip-auth/src/middleware/auth.ts:38-49 | `req.user` is set to the record exactly on success; on error it stays as it was |
| SipMiddleware.RequireRole | services/sip-auth/src/middleware/auth.ts:53-65 | 401 iff no user, 403 iff the role is not listed, pass iff it is |
| SipMiddleware.AuthenticatedThenRole | services/sip-auth/src/middleware/auth.ts:42-63 | an authenticated request passes the role gate iff its stored role is listed |
| Strings.ToUpperAscii | services/sip-auth/src/routes/auth.ts:40 | upper-casing keeps the length, maps each lower-case ASCII letter to its upper-case letter and keeps every other character |
| Strings.ToUpperIdempotent | services/sip-auth/src/routes/auth.ts:40 | upper-casing an already upper-cased role changes nothing |
| Strings.ToLowerAscii | services/billing/src/services/payment-service.ts:36 | lower-casing keeps the length, maps each upper-case ASCII letter to its lower-case letter and keeps every other character |
| SipRoutes.StoredRole | services/sip-auth/src/routes/auth.ts:15-40 | role defaults to "USER"; a sent role is stored upper-cased, with no lower-case letter left |
| SipRoutes.SipAlphabetIsAlphanumeric | services/sip-auth/src/routes/auth.ts:211 | the password alphabet has 62 characters: exactly A-Z, a-z and 0-9 |
| SipRoutes.GenerateSipPassword | services/sip-auth/src/routes/auth.ts:210-217 | returns exactly 16 characters, each an ASCII letter or digit |
| SipRoutes.SipUsername | services/sip-auth/src/routes/auth.ts:53 | "sip_" followed by the first (at most) eight characters of the user id |
| SipRoutes.UserDirectory.Register | services/sip-auth/src/routes/auth.ts:13-79 | 400 and 409 create nothing; success creates exactly one record with hashed password and hashed SIP password; the plaintext SIP password appears only in the reply |
| SipRoutes.UserDirectory.Login | services/sip-auth/src/routes/auth.ts:82-134 | success iff the email belongs to an active user whose password matches; every other failure is the same 401 "Invalid credentials" |
| SipRoutes.UserDirectory.Me | services/sip-auth/src/routes/auth.ts:137-164 | 404 iff the user is missing; otherwise the selected profile columns, `createdAt` and `updatedAt` included |
| SipRoutes.UserDirectory.ChangePassword | services/sip-auth/src/routes/auth.ts:167-207 | 400, 404 or 401 change nothing; success stores exactly the hash of the new password and the time of the change |
| BillingDb.Credit | services/billing/src/services/billing-service.ts:127-134 | an increment moves one existing user's balance by the amount and no other record |
| BillingDb.DebitTwice | services/billing/src/services/payment-service.ts:110-117 | two decrements of an amount take it off twice |
| BillingDb.CreditThenDebit | services/billing/src/services/payment-service.ts:110-117 | a decrement undoes an increment of the same amount |
| Money.Cents | services/billing/src/services/payment-service.ts:35 | `Math.round(x*100)` is within half a cent of `100x` |
| Money.Round2 | services/billing/src/services/billing-service.ts:159 | the two-decimal rounding is within 0.005 of its input and a whole number of cents |
| Money.CentsMonotone | services/billing/src/services/payment-service.ts:35 | cent rounding preserves order |
| Money.Round2Monotone | services/billing/src/services/billing-service.ts:159 | two-decimal rounding preserves order |
| Money.Round2Idempotent | services/billing/src/services/billing-service.ts:159 | rounding a rounded amount changes nothing |
| Money.CentsOfRound2 | services/billing/src/services/payment-service.ts:35 | the cents charged for a rounded cost are exactly its hundredfold |
| Billing.InternationalByCharacters | services/billing/src/services/billing-service.ts:162-166 | international iff the first character is '+' and the second, if present, is not '1' |
| Billing.CallCost | services/billing/src/services/billing-service.ts:142-160 | the charged cost is within 0.005 of the unrounded formula |
| Billing.RawCostIsFeePlusMinutes | services/billing/src/services/billing-service.ts:143-157 | cost = connection fee + minutes × (per-minute rate + video surcharge if VIDEO + international surcharge if international) |
| Billing.ZeroDurationCost | services/billing/src/services/billing-service.ts:144-159 | a zero-second call costs exactly the rounded connection fee |
| Billing.VideoSurchargeIffVideo | services/billing/src/services/billing-service.ts:150-152 | the video surcharge is added iff the call type is "VIDEO" |
| Billing.CostMonotoneInDuration | services/billing/src/services/billing-service.ts:142-160 | with non-negative rates a longer call never costs less |
| Billing.TotalCostAppend | services/billing/src/services/billing-service.ts:246 | the cost total of two batches is the sum of their totals |
| Billing.TotalCostNonNegative | services/billing/src/services/billing-service.ts:246 | records without negative costs give a non-negative total |
| Billing.Summarize | services/billing/src/services/billing-service.ts:246-256 | counts every call; average per call × calls = total (0 with no calls); average per minute × minutes = total (0 when minutes ≤ 0) |
| Billing.SelectCalls | services/billing/src/services/billing-service.ts:236-244 | exactly the user's calls that started in the window, each as many times as it occurs in the table |
| Billing.NoCallsZeroSummary | services/billing/src/services/billing-service.ts:235-257 | a user without calls in the window gets an all-zero summary |
| Billing.PatchOverwritesExactlySupplied | services/billing/src/services/billing-service.ts:272-275 | each supplied rate is overwritten, each other one kept |
| Billing.PatchIdempotent | services/billing/src/services/billing-service.ts:272-275 | applying the same update twice equals applying it once |
| Billing.FullPatchReplaces | services/billing/src/services/billing-service.ts:272-275 | an update supplying every field determines the rates |
| Billing.BillCall | services/billing/src/services/billing-service.ts:116-140 | an unknown record changes nothing; otherwise the record's cost becomes `CallCost` and no other record changes; the owner's balance grows by that cost, an unknown owner changes no account, and no other balance moves |
| Billing.BalanceGrowsByRecordedCost | services/billing/src/services/billing-service.ts:118-134 | the cost written to the record is `CallCost`, and the balance grows by exactly that cost; no other balance moves |
| Billing.BillAll | services/billing/src/services/billing-service.ts:106-108 | a batch never adds or removes a call record or an account |
| Billing.BillAllBalance | services/billing/src/services/billing-service.ts:106-108 | after a batch each balance has grown by exactly the costs of that user's known calls |
| Billing.OtherUsersChargeNothing | services/billing/src/services/billing-service.ts:106-108 | a batch of other users' calls charges a user nothing |
| Billing.BillingService.ProcessCallBilling | services/billing/src/services/billing-service.ts:116-140 | performs `BillCall`: an unknown record changes nothing; a missing user keeps the written cost; invoices untouched |
| Billing.BillingService.ProcessDailyBilling | services/billing/src/services/billing-service.ts:106-108 | the loop performs `BillAll`, so every balance grows by its user's charges |
| Billing.BillingService.StartScheduler | services/billing/src/services/billing-service.ts:34-64 | appends three new running jobs (daily, monthly, reminders) |
| Billing.BillingService.StopScheduler | services/billing/src/services/billing-service.ts:66-75 | every job that was registered is stopped and the list is emptied |
| Billing.BillingService.UpdateBillingRates | services/billing/src/services/billing-service.ts:272-275 | the rates become the old rates with the supplied fields merged in |
| StripeApi.RefundCents | services/billing/src/services/payment-service.ts:175 | no amount (or zero) asks for a full refund; otherwise the amount within half a cent |
| Payments.IntentRequestFor | services/billing/src/services/payment-service.ts:34-44 | charges the invoice amount in cents, the invoice currency lower-cased, no customer, invoice and user in the metadata |
| Payments.WebhookNoOps | services/billing/src/services/payment-service.ts:68-93 | other event types, and events without an invoice id, change nothing |
| Payments.WebhookUnknownInvoice | services/billing/src/services/payment-service.ts:96-102 | an event for a missing invoice throws and changes nothing |
| Payments.WebhookSetsStatus | services/billing/src/services/payment-service.ts:95-157 | succeeded/failed/canceled set PAID/FAILED/CANCELLED on that invoice only |
| Payments.SuccessDebitsOwner | services/billing/src/services/payment-service.ts:95-118 | success records `paidAt` and decrements the owner's balance by the invoice amount, no other balance |
| Payments.FailureReason | services/billing/src/services/payment-service.ts:132-138 | the failure reason is the provider's message, else "Payment failed" |
| Payments.RedeliveredSuccessDebitsTwice | services/billing/src/services/payment-service.ts:87-121 | a redelivered success leaves the invoice as once but debits twice |
| Payments.RefundedAmount | services/billing/src/services/payment-service.ts:184-193 | the refunded amount is the given amount when non-zero, else the invoice amount |
| Payments.RefundNeedsIntent | services/billing/src/services/payment-service.ts:168-170 | without the invoice or its intent id the refund fails and changes nothing |
| Payments.RefundDebitsRecordedAmount | services/billing/src/services/payment-service.ts:172-196 | a completed refund sets REFUNDED and decrements the balance by the recorded refund amount |
| Payments.PaidThenFullyRefunded | services/billing/src/services/payment-service.ts:95-196 | a payment followed by a full refund leaves the balance twice the amount lower |
| Payments.Select | services/billing/src/services/payment-service.ts:219-222 | exactly the user's PAID and REFUNDED invoices, each as often as the table holds it |
| Payments.Insert | services/billing/src/services/payment-service.ts:223 | insertion adds exactly the one invoice |
| Payments.NewerFirstTransitive | services/billing/src/services/payment-service.ts:223 | the descending `paidAt` order is transitive |
| Payments.InsertKeepsOrder | services/billing/src/services/payment-service.ts:223 | insertion keeps the newest-first order |
| Payments.SortNewestFirst | services/billing/src/services/payment-service.ts:223 | the result is a permutation ordered newest `paidAt` first |
| Payments.TakeNewest | services/billing/src/services/payment-service.ts:223-224 | `take` on a newest-first list keeps a prefix of min(n, length) entries, and each entry it drops is no newer than every kept one |
| Payments.HistoryIsNewestPaidInvoices | services/billing/src/services/payment-service.ts:217-225 | the history is the prefix of the newest-first ordering of exactly the user's paid/refunded invoices, of length min(`limit`, their number) with `limit` 50 when omitted; every such invoice left out is no newer than each one listed |
| Payments.PaymentService.CreatePaymentIntent | services/billing/src/services/payment-service.ts:18-64 | a missing or non-PENDING invoice fails and changes nothing; the result is success iff the provider creates the intent, and the provider's own error otherwise; success stores the intent id, keeps the status PENDING and returns the client secret |
| Payments.PaymentService.HandleWebhook | services/billing/src/services/payment-service.ts:66-160 | performs `Webhook` on the invoice and user tables |
| Payments.PaymentService.Refund | services/billing/src/services/payment-service.ts:162-204 | performs `RefundPayment` on the invoice and user tables |
| Processing.ProcessorIntentRequest | services/billing/src/services/payment-processor.ts:76-87 | charges the invoice in cents, currency lower-cased, to the customer, invoice id in the metadata, with the invoice description |
| Processing.CustomerName | services/billing/src/services/payment-processor.ts:71 | an empty or missing name is not sent |
| Processing.HandlersKeepBalances | services/billing/src/services/payment-processor.ts:126-177 | the processor's success and failure handlers never move a balance |
| Processing.HandlersIgnoreMissingInvoiceId | services/billing/src/services/payment-processor.ts:131-161 | without an invoice id both handlers return normally and change nothing |
| Processing.CreatedThenDeleted | services/billing/src/services/payment-processor.ts:179-230 | deleting right after creating clears the subscription and keeps the customer id |
| Processing.SubscriptionKeepsBalance | services/billing/src/services/payment-processor.ts:184-223 | a missing named user throws; otherwise the named user gets exactly the event's provider ids (or loses the subscription id) and every other field and every other user is unchanged |
| Processing.PaymentProcessor.CreateCustomer | services/billing/src/services/payment-processor.ts:27-49 | stores the new customer id on an existing user; a provider failure changes nothing |
| Processing.PaymentProcessor.CreatePaymentIntent | services/billing/src/services/payment-processor.ts:51-104 | "Invoice not found" for a missing invoice; a customer is created only when none is stored; once a customer id is at hand the result is the provider's answer to the intent request, success or failure; success stores the intent id and sets PROCESSING |
| Processing.PaymentProcessor.HandlePaymentSuccess | services/billing/src/services/payment-processor.ts:126-151 | performs `PaymentSuccess`: PAID with `paidAt`; no-op without an invoice id |
| Processing.PaymentProcessor.HandlePaymentFailure | services/billing/src/services/payment-processor.ts:153-177 | performs `PaymentFailure`: FAILED; no-op without an invoice id |
| Processing.PaymentProcessor.ConfirmPayment | services/billing/src/services/payment-processor.ts:106-124 | the success handler runs iff the confirmed status is "succeeded"; its failure fails the call |
| Processing.PaymentProcessor.HandleSubscriptionCreated | services/billing/src/services/payment-processor.ts:179-204 | stores subscription and customer ids; no-op without a user id |
| Processing.PaymentProcessor.HandleSubscriptionDeleted | services/billing/src/services/payment-processor.ts:206-230 | clears the subscription id; no-op without a user id |
| Processing.PaymentProcessor.CreateRefund | services/billing/src/services/payment-processor.ts:232-267 | needs the invoice and its intent id; refunds the amount in cents or in full, then sets REFUNDED; balances untouched |
| Invoicing.Period | services/billing/src/services/invoice-service.ts:62 | the first seven characters of the ISO start date |
| Invoicing.DueDate | services/billing/src/services/invoice-service.ts:65 | exactly 15 days (1 296 000 000 ms) after the period end |
| Invoicing.WholeMinutes | services/billing/src/services/invoice-service.ts:49-67 | the whole minutes `m` of `s` seconds satisfy `60m <= s < 60m + 60` |
| Invoicing.WholeMinutesIsIntegerQuotient | services/billing/src/services/invoice-service.ts:67 | flooring the real quotient equals integer division by 60 |
| Invoicing.InvoiceAgreesWithSummary | services/billing/src/services/invoice-service.ts:48-70 | a new invoice carries the summary's total cost and call count, minutes floored, PENDING, USD |
| Invoicing.RowsStayOnPage | services/billing/src/services/invoice-service.ts:119-134 | every row lands between y = 50 and y = 700, for any number of rows |
| Invoicing.CursorBeforeWithinCap | services/billing/src/services/invoice-service.ts:119-134 | up to 20 rows the cursor moves straight down the first page from 310 by 20 |
| Invoicing.NoPageBreakWithinCap | services/billing/src/services/invoice-service.ts:122-133 | within the cap row k sits on the first page at 310 + 20k <= 690 |
| Invoicing.JsRem | services/billing/src/services/invoice-service.ts:130 | `%` keeps the sign of the dividend, stays below the divisor in magnitude, and with the truncated quotient adds back up to the dividend |
| Invoicing.ShownDurationAddsUp | services/billing/src/services/invoice-service.ts:130 | for d >= 0 the shown minutes and seconds satisfy 60·m + s = d with 0 <= s < 60 |
| Invoicing.NegativeDurationShownAMinuteShort | services/billing/src/services/invoice-service.ts:130 | for a negative non-whole-minute d, 60·m + s = d − 60 |
| Invoicing.LayoutCallRows | services/billing/src/services/invoice-service.ts:119-134 | the first min(n, 20) calls, row k numbered k+1 at the loop's cursor, which is page 0, y = 310 + 20k |
| Invoicing.Sender | services/billing/src/services/invoice-service.ts:154 | the sender is the `SMTP_FROM` setting when it is set and non-empty, and billing@callstack.com otherwise |
| Invoicing.SendInvoiceEmail | services/billing/src/services/invoice-service.ts:143-173 | fails for an unknown user, passes a send failure on; otherwise mails the owner from the configured sender with the PDF attached |
| Invoicing.SendPaymentReminder | services/billing/src/services/invoice-service.ts:175-197 | has no failure outcome: a reminder from the configured sender goes out iff the user exists and sending succeeds |
| Invoicing.InvoiceService.GenerateMonthlyInvoice | services/billing/src/services/invoice-service.ts:35-84 | total ≤ 0 gives null and creates nothing; otherwise one PENDING invoice is created, its PDF laid out, and an e-mail failure fails the call after the invoice exists |

## Left out

- Conference and media relay logic (mediasoup), the web clients and the admin UI are not part of this model.
- HTTP and Socket.IO wiring, CORS, rate limiting, logging, health endpoints and signal handlers are not modelled.
- Concurrency: each handler is one atomic step. The interleaving of awaited store calls between handlers is not modelled.
- Store writes that are not awaited (the connect `setEx`, the disconnect `del`) take effect at once when the store is reachable and are lost otherwise. The client library's offline queue is not modelled.
- Time is an integer clock parameter. Cron timing, the local-time date arithmetic of `processDailyBilling` and `generateMonthlyInvoices`, `toISOString` and `toLocaleDateString` are not modelled. The ISO start date is a parameter.
- `generateMonthlyInvoices` and `sendPaymentReminders` (the loops over users and overdue invoices in billing-service.ts) are not modelled. The per-user operations they call are.
- `getPaymentMethods`, `addPaymentMethod`, `attachPaymentMethod`, `detachPaymentMethod`, `initialize`, `getInvoice`, `getUserInvoices`, `updateInvoiceStatus`, `updateUserBillingSettings` and `getBillingRates` are not modelled: they are plain pass-throughs to the database or provider.
- Stripe, bcrypt, `jwt.sign`/`jwt.verify`, nodemailer and Prisma are function parameters or map operations. A Prisma update of a missing record throws; a lookup by a missing key yields nothing. Database failures other than those are not modelled.
- Money is exact `real`, so IEEE-754 rounding is not modelled. `toFixed(2)` in the PDF and e-mails is drawing and is not modelled.
- The PDF is modelled as its call rows and their page/position. Text, fonts, headers and buffer assembly are not modelled. The HTML e-mail templates and the reminder's days-overdue figure are not modelled.
- Processing.PaymentProcessor.CreatePaymentIntent: the source reads `invoice.totalCost`, a field the invoice created by invoice-service.ts does not set. The model charges the invoice `amount`.
- SipRoutes.UserDirectory.Register: the created user is taken as active, which is the column default of a database schema that is not part of this model. The database id is a parameter.
- SipRoutes.UserDirectory.Register: duplicate emails are rejected by the handler's lookup. The unique constraint racing with a concurrent register is not modelled.
- SipMiddleware.AuthenticateToken: errors other than a rejected token (a failing database) pass through unchanged in the source. The model has no such errors.
- Strings.ToUpperAscii: case mapping covers ASCII letters only. JavaScript's full Unicode `toUpperCase` is not modelled.
- Strings.ToLowerAscii: likewise covers ASCII letters only; JavaScript's full Unicode `toLowerCase` is not modelled.
- SipRoutes.UserDirectory.ChangePassword: `updatedAt` is taken to be set to the time of every write, as an `@updatedAt` column of a database schema that is not part of this model would be.
- Payments.HistoryIsNewestPaidInvoices: invoices without `paidAt` are placed first, the database's default for a descending order. Order among equal `paidAt` values is left to the model's stable insertion.
- SipRoutes.UserDirectory.Register: a JSON `null` role is not modelled. The default `'USER'` applies only to an undefined role, so `null.toUpperCase()` throws and the error goes to `next` with nothing created. The model's role parameter distinguishes only an absent role from a string, and an absent one is stored as "USER".
- Payments.HistoryIsNewestPaidInvoices: `limit` is a natural number. The route passes `parseInt` of the query string, so a negative `take` (which the database reads as counting from the end) and `NaN` (which the database rejects) are not modelled.
- Billing.BillingService.ProcessDailyBilling: takes the records the day's query returned as a parameter. The query's date window is not modelled.
- Invoicing.InvoiceService.GenerateMonthlyInvoice: the generated id is a parameter, and a clash with an existing id fails the creation.
- Signaling.SignalingServer.StatusUpdate: the status is an arbitrary string, as the handler stores it unchecked.

## Findings

| source | as written | input that shows it | evidently intended | confidence | as-written member | corrected member |
|---|---|---|---|---|---|---|
| services/signaling/src/index.ts:81-86 | on disconnect, `del user:<id>:socket` runs whatever connection the key now names | user U connects on s1, reconnects on s2 (the key now names s2), then s1's disconnect fires: U's live session on s2 is deleted and calls to U get "User not available" | delete the key only while it still names the closing connection | medium; not executed | Signaling.StaleDisconnectEvictsNewerSession | Signaling.GuardedDisconnectKeepsNewerSession |
