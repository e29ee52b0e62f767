/**
 * The billing service (services/billing/src/services/billing-service.ts):
 * the per-call cost formula, the international-number test, the billing of
 * call records against user balances, the usage summary, rate updates and
 * the scheduler's job list.
 */
module Billing {
  import opened Wrappers
  import opened Strings
  import opened Money
  import opened BillingDb

  datatype Rates = Rates(perMinuteRate: real, connectionFee: real, videoSurcharge: real,
                         internationalSurcharge: real)

  /** The rates used when the environment sets none. */
  const DefaultRates: Rates := Rates(0.02, 0.01, 0.005, 0.01)

  predicate NonNegative(r: Rates) {
    r.perMinuteRate >= 0.0 && r.connectionFee >= 0.0 && r.videoSurcharge >= 0.0
    && r.internationalSurcharge >= 0.0
  }

  const VideoCall: string := "VIDEO"

  // ---------------------------------------------------------------- cost

  /** `isInternationalCall`: a `+` prefix that is not `+1`. */
  function IsInternationalCall(phoneNumber: string): bool {
    StartsWith(phoneNumber, "+") && !StartsWith(phoneNumber, "+1")
  }

  /** Character by character: the first character is `+` and the second, if any, is not `1`. */
  lemma InternationalByCharacters(phoneNumber: string)
    ensures IsInternationalCall(phoneNumber)
        <==> |phoneNumber| >= 1 && phoneNumber[0] == '+' && (|phoneNumber| == 1 || phoneNumber[1] != '1')
  {
    if |phoneNumber| >= 2 && phoneNumber[0] == '+' && phoneNumber[1] == '1' {
      assert phoneNumber[..2] == "+1";
    }
    if |phoneNumber| >= 1 && phoneNumber[0] == '+' {
      assert phoneNumber[..1] == "+";
    }
  }

  function DurationMinutes(duration: int): real {
    duration as real / 60.0
  }

  /** The cost before rounding, term by term as the service adds it up. */
  function RawCost(rates: Rates, cdr: CallRecord): real {
    var m := DurationMinutes(cdr.duration);
    var cost := rates.connectionFee + m * rates.perMinuteRate;
    var cost := if cdr.callType == VideoCall then cost + m * rates.videoSurcharge else cost;
    if IsInternationalCall(cdr.calleeNumber) then cost + m * rates.internationalSurcharge else cost
  }

  /** `calculateCallCost`: the raw cost rounded half up to two decimals. */
  function CallCost(rates: Rates, cdr: CallRecord): (cost: real)
    ensures RawCost(rates, cdr) - 0.005 < cost <= RawCost(rates, cdr) + 0.005
  {
    Round2(RawCost(rates, cdr))
  }

  /** The rate per minute that applies to a call: the base rate plus the surcharges it attracts. */
  function MinuteRate(rates: Rates, cdr: CallRecord): real {
    rates.perMinuteRate
    + (if cdr.callType == VideoCall then rates.videoSurcharge else 0.0)
    + (if IsInternationalCall(cdr.calleeNumber) then rates.internationalSurcharge else 0.0)
  }

  /** The cost is the connection fee plus the call's minutes at its per-minute rate. */
  lemma {:induction false} RawCostIsFeePlusMinutes(rates: Rates, cdr: CallRecord)
    ensures RawCost(rates, cdr) == rates.connectionFee + DurationMinutes(cdr.duration) * MinuteRate(rates, cdr)
  {
    var m := DurationMinutes(cdr.duration);
    var v := if cdr.callType == VideoCall then rates.videoSurcharge else 0.0;
    var i := if IsInternationalCall(cdr.calleeNumber) then rates.internationalSurcharge else 0.0;
    assert RawCost(rates, cdr) == rates.connectionFee + m * rates.perMinuteRate + m * v + m * i;
    assert m * (rates.perMinuteRate + v + i) == m * rates.perMinuteRate + m * v + m * i;
  }

  /** A call of zero seconds costs the rounded connection fee and nothing more. */
  lemma ZeroDurationCost(rates: Rates, cdr: CallRecord)
    requires cdr.duration == 0
    ensures CallCost(rates, cdr) == Round2(rates.connectionFee)
  {
    RawCostIsFeePlusMinutes(rates, cdr);
  }

  /** The video surcharge is added exactly when the call type is `VIDEO`. */
  lemma VideoSurchargeIffVideo(rates: Rates, cdr: CallRecord, otherType: string)
    requires otherType != VideoCall
    ensures RawCost(rates, cdr) - RawCost(rates, cdr.(callType := otherType))
         == (if cdr.callType == VideoCall then DurationMinutes(cdr.duration) * rates.videoSurcharge else 0.0)
  {
    RawCostIsFeePlusMinutes(rates, cdr);
    RawCostIsFeePlusMinutes(rates, cdr.(callType := otherType));
    var m := DurationMinutes(cdr.duration);
    assert m * MinuteRate(rates, cdr) - m * MinuteRate(rates, cdr.(callType := otherType))
        == m * (MinuteRate(rates, cdr) - MinuteRate(rates, cdr.(callType := otherType)));
  }

  /** With non-negative rates a longer call never costs less. */
  lemma CostMonotoneInDuration(rates: Rates, cdr: CallRecord, longer: int)
    requires NonNegative(rates)
    requires cdr.duration <= longer
    ensures CallCost(rates, cdr) <= CallCost(rates, cdr.(duration := longer))
  {
    var cdr' := cdr.(duration := longer);
    RawCostIsFeePlusMinutes(rates, cdr);
    RawCostIsFeePlusMinutes(rates, cdr');
    var m, m' := DurationMinutes(cdr.duration), DurationMinutes(longer);
    var k := MinuteRate(rates, cdr);
    assert MinuteRate(rates, cdr') == k && k >= 0.0;
    assert m <= m';
    assert m' * k - m * k == (m' - m) * k;
    assert (m' - m) * k >= 0.0;
    Round2Monotone(RawCost(rates, cdr), RawCost(rates, cdr'));
  }

  // ---------------------------------------------------------------- summary

  /** `call.cost || 0`. */
  function CostOrZero(c: CallRecord): real {
    c.cost.GetOr(0.0)
  }

  /** `calls.reduce((sum, call) => sum + (call.cost || 0), 0)`. */
  function TotalCost(calls: seq<CallRecord>): real {
    if calls == [] then 0.0 else TotalCost(calls[..|calls| - 1]) + CostOrZero(calls[|calls| - 1])
  }

  /** `calls.reduce((sum, call) => sum + call.duration, 0)`. */
  function TotalDuration(calls: seq<CallRecord>): int {
    if calls == [] then 0 else TotalDuration(calls[..|calls| - 1]) + calls[|calls| - 1].duration
  }

  /** The cost total of two batches is the sum of their totals. */
  lemma {:induction false} TotalCostAppend(a: seq<CallRecord>, b: seq<CallRecord>)
    ensures TotalCost(a + b) == TotalCost(a) + TotalCost(b)
    decreases |b|
  {
    if b != [] {
      assert (a + b)[..|a + b| - 1] == a + b[..|b| - 1];
      TotalCostAppend(a, b[..|b| - 1]);
    } else {
      assert a + b == a;
    }
  }

  /** No call record with a negative cost means no negative total. */
  lemma {:induction false} TotalCostNonNegative(calls: seq<CallRecord>)
    requires forall i :: 0 <= i < |calls| ==> CostOrZero(calls[i]) >= 0.0
    ensures TotalCost(calls) >= 0.0
  {
    if calls != [] {
      TotalCostNonNegative(calls[..|calls| - 1]);
    }
  }

  datatype Summary = Summary(totalCost: real, totalMinutes: real, totalCalls: nat,
                             averageCostPerCall: real, averageCostPerMinute: real)

  /** The summary of a list of call records, with both averages guarded against zero. */
  function Summarize(calls: seq<CallRecord>): (s: Summary)
    ensures s.totalCalls == |calls| && s.totalCost == TotalCost(calls)
    ensures s.totalMinutes * 60.0 == TotalDuration(calls) as real
    ensures s.totalCalls == 0 ==> s.averageCostPerCall == 0.0
    ensures s.totalCalls > 0 ==> s.averageCostPerCall * s.totalCalls as real == s.totalCost
    ensures s.totalMinutes <= 0.0 ==> s.averageCostPerMinute == 0.0
    ensures s.totalMinutes > 0.0 ==> s.averageCostPerMinute * s.totalMinutes == s.totalCost
  {
    var totalCost := TotalCost(calls);
    var totalMinutes := TotalDuration(calls) as real / 60.0;
    var totalCalls := |calls|;
    Summary(totalCost, totalMinutes, totalCalls,
            if totalCalls > 0 then totalCost / totalCalls as real else 0.0,
            if totalMinutes > 0.0 then totalCost / totalMinutes else 0.0)
  }

  /** The summary query: the user's calls that started within `[startDate, endDate]`. */
  predicate InSummaryWindow(c: CallRecord, userId: string, startDate: int, endDate: int) {
    c.userId == userId && startDate <= c.startTime <= endDate
  }

  function SelectCalls(rows: seq<CallRecord>, userId: string, startDate: int, endDate: int)
    : (r: seq<CallRecord>)
    ensures |r| <= |rows|
    ensures forall c :: c in r <==> c in rows && InSummaryWindow(c, userId, startDate, endDate)
    ensures forall c :: multiset(r)[c] == if InSummaryWindow(c, userId, startDate, endDate) then multiset(rows)[c] else 0
  {
    if rows == [] then []
    else
      var rest := SelectCalls(rows[1..], userId, startDate, endDate);
      assert forall c :: c in rows <==> c == rows[0] || c in rows[1..];
      assert rows == [rows[0]] + rows[1..];
      assert multiset(rows) == multiset([rows[0]]) + multiset(rows[1..]);
      if InSummaryWindow(rows[0], userId, startDate, endDate) then [rows[0]] + rest else rest
  }

  /** `getUserBillingSummary` over the call table `rows`. */
  function UserBillingSummary(rows: seq<CallRecord>, userId: string, startDate: int, endDate: int): Summary {
    Summarize(SelectCalls(rows, userId, startDate, endDate))
  }

  /** A user without calls in the window gets an all-zero summary. */
  lemma {:induction false} NoCallsZeroSummary(rows: seq<CallRecord>, userId: string, startDate: int, endDate: int)
    requires forall i :: 0 <= i < |rows| ==> !InSummaryWindow(rows[i], userId, startDate, endDate)
    ensures UserBillingSummary(rows, userId, startDate, endDate) == Summary(0.0, 0.0, 0, 0.0, 0.0)
  {
    if rows != [] {
      NoCallsZeroSummary(rows[1..], userId, startDate, endDate);
    }
  }

  // ---------------------------------------------------------------- rates

  /** A `Partial<BillingRates>`: the fields present in an update. */
  datatype RatesPatch = RatesPatch(perMinuteRate: Option<real>, connectionFee: Option<real>,
                                   videoSurcharge: Option<real>, internationalSurcharge: Option<real>)

  /** `Object.assign(rates, patch)`. */
  function ApplyPatch(rates: Rates, patch: RatesPatch): Rates {
    Rates(patch.perMinuteRate.GetOr(rates.perMinuteRate),
          patch.connectionFee.GetOr(rates.connectionFee),
          patch.videoSurcharge.GetOr(rates.videoSurcharge),
          patch.internationalSurcharge.GetOr(rates.internationalSurcharge))
  }

  /** Exactly the supplied fields are overwritten; every other field keeps its value. */
  lemma PatchOverwritesExactlySupplied(rates: Rates, patch: RatesPatch)
    ensures var r := ApplyPatch(rates, patch);
      && (r.perMinuteRate == if patch.perMinuteRate.Some? then patch.perMinuteRate.value else rates.perMinuteRate)
      && (r.connectionFee == if patch.connectionFee.Some? then patch.connectionFee.value else rates.connectionFee)
      && (r.videoSurcharge == if patch.videoSurcharge.Some? then patch.videoSurcharge.value else rates.videoSurcharge)
      && (r.internationalSurcharge == if patch.internationalSurcharge.Some?
                                      then patch.internationalSurcharge.value else rates.internationalSurcharge)
  {
  }

  /** Applying the same update twice is the same as applying it once. */
  lemma PatchIdempotent(rates: Rates, patch: RatesPatch)
    ensures ApplyPatch(ApplyPatch(rates, patch), patch) == ApplyPatch(rates, patch)
  {
  }

  /** An update that supplies every field determines the rates on its own. */
  lemma FullPatchReplaces(rates: Rates, other: Rates)
    ensures ApplyPatch(rates, RatesPatch(Some(other.perMinuteRate), Some(other.connectionFee),
                                         Some(other.videoSurcharge), Some(other.internationalSurcharge))) == other
  {
  }

  // ---------------------------------------------------------------- billing a batch

  /** The two tables billing writes: call records and user balances. */
  datatype Ledger = Ledger(calls: map<string, CallRecord>, accounts: map<string, Account>)

  /**
   * `processCallBilling` on the ledger: the record update throws for an
   * unknown id and nothing is written; the balance update that follows is
   * dropped for an unknown user, the cost already written stays.
   */
  function BillCall(l: Ledger, rates: Rates, cdr: CallRecord): (r: Ledger)
    ensures r.calls.Keys == l.calls.Keys && r.accounts.Keys == l.accounts.Keys
    ensures cdr.id !in l.calls ==> r == l
    ensures cdr.id in l.calls ==> r.calls[cdr.id] == l.calls[cdr.id].(cost := Some(CallCost(rates, cdr)))
    ensures forall id :: id in l.calls && id != cdr.id ==> r.calls[id] == l.calls[id]
    ensures cdr.userId !in l.accounts ==> r.accounts == l.accounts
    ensures cdr.id in l.calls && cdr.userId in l.accounts ==>
      r.accounts[cdr.userId].balance == l.accounts[cdr.userId].balance + CallCost(rates, cdr)
    ensures forall u :: u in l.accounts && u != cdr.userId ==> r.accounts[u] == l.accounts[u]
  {
    if cdr.id !in l.calls then l
    else
      var cost := CallCost(rates, cdr);
      Ledger(l.calls[cdr.id := l.calls[cdr.id].(cost := Some(cost))], Credit(l.accounts, cdr.userId, cost))
  }

  /** The balance grows by exactly the cost written to the call record, and no other balance moves. */
  lemma BalanceGrowsByRecordedCost(l: Ledger, rates: Rates, cdr: CallRecord)
    requires cdr.id in l.calls && cdr.userId in l.accounts
    ensures var r := BillCall(l, rates, cdr);
      && r.calls[cdr.id].cost == Some(CallCost(rates, cdr))
      && r.accounts[cdr.userId].balance == l.accounts[cdr.userId].balance + r.calls[cdr.id].cost.value
      && forall u :: u in l.accounts && u != cdr.userId ==> r.accounts[u] == l.accounts[u]
  {
  }

  /** The records of `processDailyBilling`'s loop, billed one after another. */
  function BillAll(l: Ledger, rates: Rates, cdrs: seq<CallRecord>): (r: Ledger)
    ensures r.calls.Keys == l.calls.Keys && r.accounts.Keys == l.accounts.Keys
  {
    if cdrs == [] then l else BillCall(BillAll(l, rates, cdrs[..|cdrs| - 1]), rates, cdrs[|cdrs| - 1])
  }

  /** What the records in `cdrs` that exist in the call table charge to user `userId`. */
  function Charges(known: set<string>, rates: Rates, cdrs: seq<CallRecord>, userId: string): real {
    if cdrs == [] then 0.0
    else
      var last := cdrs[|cdrs| - 1];
      Charges(known, rates, cdrs[..|cdrs| - 1], userId)
      + (if last.id in known && last.userId == userId then CallCost(rates, last) else 0.0)
  }

  /** After a batch, each balance has grown by exactly the costs of that user's known calls. */
  lemma {:induction false} BillAllBalance(l: Ledger, rates: Rates, cdrs: seq<CallRecord>, userId: string)
    requires userId in l.accounts
    ensures BillAll(l, rates, cdrs).accounts[userId].balance
         == l.accounts[userId].balance + Charges(l.calls.Keys, rates, cdrs, userId)
  {
    if cdrs != [] {
      BillAllBalance(l, rates, cdrs[..|cdrs| - 1], userId);
    }
  }

  /** A batch whose records all belong to other users leaves a user's balance alone. */
  lemma {:induction false} OtherUsersChargeNothing(known: set<string>, rates: Rates, cdrs: seq<CallRecord>, userId: string)
    requires forall i :: 0 <= i < |cdrs| ==> cdrs[i].userId != userId
    ensures Charges(known, rates, cdrs, userId) == 0.0
  {
    if cdrs != [] {
      OtherUsersChargeNothing(known, rates, cdrs[..|cdrs| - 1], userId);
    }
  }

  // ---------------------------------------------------------------- the service

  /** A scheduled job; the timing of its runs is not modelled. */
  class ScheduledTask {
    const expression: string
    var running: bool

    constructor (expression: string)
      ensures this.expression == expression && running
    {
      this.expression := expression;
      running := true;
    }

    method Stop()
      modifies this
      ensures !running
    {
      running := false;
    }
  }

  const DailyBillingSchedule: string := "0 2 * * *"
  const MonthlyInvoiceSchedule: string := "0 3 1 * *"
  const ReminderSchedule: string := "0 9 */3 * *"

  class BillingService {
    const db: Database
    var rates: Rates
    var cronJobs: seq<ScheduledTask>

    /** `rates` are the ones read from the environment (`DefaultRates` when unset). */
    constructor (db: Database, rates: Rates)
      ensures this.db == db && this.rates == rates && cronJobs == []
    {
      this.db := db;
      this.rates := rates;
      cronJobs := [];
    }

    /** `processCallBilling`: every failure is caught and logged. */
    method ProcessCallBilling(cdr: CallRecord)
      modifies db
      ensures Ledger(db.calls, db.accounts) == BillCall(Ledger(old(db.calls), old(db.accounts)), rates, cdr)
      ensures db.invoices == old(db.invoices)
    {
      var cost := CallCost(rates, cdr);
      if cdr.id !in db.calls {
        return;
      }
      db.calls := db.calls[cdr.id := db.calls[cdr.id].(cost := Some(cost))];
      if cdr.userId !in db.accounts {
        return;
      }
      db.accounts := Credit(db.accounts, cdr.userId, cost);
    }

    /**
     * The loop of `processDailyBilling` over the records its query returned
     * (`calls`); the query's date window is not modelled.
     */
    method ProcessDailyBilling(calls: seq<CallRecord>)
      modifies db
      ensures Ledger(db.calls, db.accounts) == BillAll(Ledger(old(db.calls), old(db.accounts)), rates, calls)
      ensures forall u :: u in old(db.accounts) ==>
        u in db.accounts
        && db.accounts[u].balance == old(db.accounts)[u].balance + Charges(old(db.calls).Keys, rates, calls, u)
      ensures db.invoices == old(db.invoices)
    {
      var i := 0;
      while i < |calls|
        invariant 0 <= i <= |calls|
        invariant Ledger(db.calls, db.accounts) == BillAll(Ledger(old(db.calls), old(db.accounts)), rates, calls[..i])
        invariant db.invoices == old(db.invoices)
      {
        assert calls[..i + 1][..i] == calls[..i];
        ProcessCallBilling(calls[i]);
        i := i + 1;
      }
      assert calls[..i] == calls;
      forall u | u in old(db.accounts)
        ensures u in db.accounts
        ensures db.accounts[u].balance == old(db.accounts)[u].balance + Charges(old(db.calls).Keys, rates, calls, u)
      {
        BillAllBalance(Ledger(old(db.calls), old(db.accounts)), rates, calls, u);
      }
    }

    /** `startScheduler`: registers the daily, monthly and reminder jobs. */
    method StartScheduler()
      modifies this
      ensures rates == old(rates)
      ensures |cronJobs| == |old(cronJobs)| + 3 && cronJobs[..|old(cronJobs)|] == old(cronJobs)
      ensures cronJobs[|old(cronJobs)|].expression == DailyBillingSchedule
      ensures cronJobs[|old(cronJobs)| + 1].expression == MonthlyInvoiceSchedule
      ensures cronJobs[|old(cronJobs)| + 2].expression == ReminderSchedule
      ensures forall k :: |old(cronJobs)| <= k < |cronJobs| ==> fresh(cronJobs[k]) && cronJobs[k].running
    {
      var daily := new ScheduledTask(DailyBillingSchedule);
      var monthly := new ScheduledTask(MonthlyInvoiceSchedule);
      var reminder := new ScheduledTask(ReminderSchedule);
      cronJobs := cronJobs + [daily, monthly, reminder];
    }

    /** `stopScheduler`: stops every job, then forgets them all. */
    method StopScheduler()
      modifies this, set t | t in cronJobs
      ensures cronJobs == []
      ensures forall t :: t in old(cronJobs) ==> !t.running
      ensures rates == old(rates)
    {
      var jobs := cronJobs;
      for i := 0 to |jobs|
        invariant rates == old(rates)
        invariant forall k :: 0 <= k < i ==> !jobs[k].running
      {
        jobs[i].Stop();
      }
      cronJobs := [];
    }

    /** `updateBillingRates`: merges the supplied fields into the current rates. */
    method UpdateBillingRates(patch: RatesPatch)
      modifies this
      ensures rates == ApplyPatch(old(rates), patch)
      ensures cronJobs == old(cronJobs)
    {
      rates := ApplyPatch(rates, patch);
    }
  }
}
