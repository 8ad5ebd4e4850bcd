/**
 * ReportController::daily: sums over the transactions created on one date, and the
 * session row of that date. It writes nothing.
 *
 * The source builds the deduct sum with DB::raw but does not import the DB facade,
 * so as written the report cannot be produced; the intended sum is modelled here.
 */
module Reports {
  import opened Wrappers
  import opened Store
  import opened TransactionService
  import opened TransactionController
  import opened Dashboard
  import opened FeePolicy

  datatype DailySummary = DailySummary(cashIn: int, cashOut: int, adjustmentAdd: int, adjustmentDeduct: int, fees: int)

  datatype DailyReport = DailyReport(date: Date, summary: DailySummary, session: Option<Session>)

  /** Records are selected by the date of created_at, not claimed_at. */
  predicate CreatedOn(r: Record, d: Date) {
    r.createdAt.date == d
  }

  function Summary(log: seq<Record>, d: Date): DailySummary {
    DailySummary(
      SumWhere(log, (r: Record) => CreatedOn(r, d) && r.txType == CashIn, (r: Record) => r.amount),
      SumWhere(log, (r: Record) => CreatedOn(r, d) && r.txType == CashOut, (r: Record) => r.amount),
      SumWhere(log, (r: Record) => CreatedOn(r, d) && r.txType == Adjustment && r.amount > 0, (r: Record) => r.amount),
      SumWhere(log, (r: Record) => CreatedOn(r, d) && r.txType == Adjustment && r.amount < 0, (r: Record) => -r.amount),
      SumWhere(log, (r: Record) => CreatedOn(r, d), (r: Record) => r.fee))
  }

  /** daily(): the requested date, or today when none is given. */
  function Daily(log: seq<Record>, sessions: map<Date, Session>, requested: Option<Date>, today: Date): DailyReport {
    var d := requested.GetOr(today);
    DailyReport(d, Summary(log, d), if d in sessions then Some(sessions[d]) else None)
  }

  /** When every stored amount is positive, the "deduct" bucket is empty, whatever the adjustments did to the balances. */
  lemma DeductBucketEmpty(log: seq<Record>, d: Date)
    requires AmountsPositive(log)
    ensures Summary(log, d).adjustmentDeduct == 0
  {
    SumWhereZero(log, (r: Record) => CreatedOn(r, d) && r.txType == Adjustment && r.amount < 0, (r: Record) => -r.amount);
  }

  /**
   * Because storeAdjustment accepts only amounts of at least one peso and adjust stores
   * the raw amount, a deduction made through the controllers never reaches the deduct
   * bucket: it stays empty after any accepted request.
   */
  lemma DeductionsNeverReported(b: Ledger, f: StoreForm, g: AdjustmentForm, rates: FeeRates, now: Instant, d: Date)
    requires AmountsPositive(b.log)
    ensures StoreStep(b, f, rates, now).Success? ==> Summary(StoreStep(b, f, rates, now).value.log, d).adjustmentDeduct == 0
    ensures StoreAdjustmentStep(b, g, now).Success? ==> Summary(StoreAdjustmentStep(b, g, now).value.log, d).adjustmentDeduct == 0
  {
    ControllersKeepAmountsPositive(b, f, g, rates, now);
    if StoreStep(b, f, rates, now).Success? {
      DeductBucketEmpty(StoreStep(b, f, rates, now).value.log, d);
    }
    if StoreAdjustmentStep(b, g, now).Success? {
      DeductBucketEmpty(StoreAdjustmentStep(b, g, now).value.log, d);
    }
  }

  /** On a log the service wrote, the report's fee total for a date is the dashboard's tubo for that date. */
  lemma ReportFeesMatchTubo(log: seq<Record>, d: Date)
    requires WellFormedLog(log)
    ensures Summary(log, d).fees == TuboOn(log, d)
  {
    forall i | 0 <= i < |log|
      ensures Contribution(log[i], (r: Record) => CreatedOn(r, d), (r: Record) => r.fee) == Contribution(log[i], (r: Record) => IsTubo(r, d), (r: Record) => r.fee)
    {
      assert WellFormed(log[i]);
    }
    SumWhereSame(log, (r: Record) => CreatedOn(r, d), (r: Record) => r.fee, (r: Record) => IsTubo(r, d), (r: Record) => r.fee);
  }

  /** What a single record contributes to the report of date `d`, bucket by bucket. */
  function RecordSummary(r: Record, d: Date): DailySummary {
    if !CreatedOn(r, d) then DailySummary(0, 0, 0, 0, 0)
    else DailySummary(
      if r.txType == CashIn then r.amount else 0,
      if r.txType == CashOut then r.amount else 0,
      if r.txType == Adjustment && r.amount > 0 then r.amount else 0,
      if r.txType == Adjustment && r.amount < 0 then -r.amount else 0,
      r.fee)
  }

  function Plus(x: DailySummary, y: DailySummary): DailySummary {
    DailySummary(x.cashIn + y.cashIn, x.cashOut + y.cashOut, x.adjustmentAdd + y.adjustmentAdd,
                 x.adjustmentDeduct + y.adjustmentDeduct, x.fees + y.fees)
  }

  /** The report is additive: a new record adds exactly its own contribution to every bucket. */
  lemma SummaryAppend(log: seq<Record>, r: Record, d: Date)
    ensures Summary(log + [r], d) == Plus(Summary(log, d), RecordSummary(r, d))
  {
    SumWhereAppend(log, r, (x: Record) => CreatedOn(x, d) && x.txType == CashIn, (x: Record) => x.amount);
    SumWhereAppend(log, r, (x: Record) => CreatedOn(x, d) && x.txType == CashOut, (x: Record) => x.amount);
    SumWhereAppend(log, r, (x: Record) => CreatedOn(x, d) && x.txType == Adjustment && x.amount > 0, (x: Record) => x.amount);
    SumWhereAppend(log, r, (x: Record) => CreatedOn(x, d) && x.txType == Adjustment && x.amount < 0, (x: Record) => -x.amount);
    SumWhereAppend(log, r, (x: Record) => CreatedOn(x, d), (x: Record) => x.fee);
  }

  /** A cash-in created on the report date adds its amount to the cash-in total and its fee to the fee total, and nothing else. */
  lemma CashInReported(log: seq<Record>, r: Record, d: Date)
    requires r.txType == CashIn && CreatedOn(r, d)
    ensures var before := Summary(log, d);
            Summary(log + [r], d) == before.(cashIn := before.cashIn + r.amount, fees := before.fees + r.fee)
  {
    SummaryAppend(log, r, d);
  }

  /** A record created on another date leaves the report unchanged. */
  lemma OtherDatesNotReported(log: seq<Record>, r: Record, d: Date)
    requires !CreatedOn(r, d)
    ensures Summary(log + [r], d) == Summary(log, d)
  {
    SummaryAppend(log, r, d);
  }

  /**
   * An adjustment accepted by storeAdjustment on the report date is counted under
   * "adjustment_add" with its full amount, whether its direction was "add" or "deduct",
   * and changes no other bucket.
   */
  lemma AdjustmentReportedAsAddition(b: Ledger, g: AdjustmentForm, now: Instant)
    requires StoreAdjustmentStep(b, g, now).Success?
    ensures var before := Summary(b.log, now.date);
            Summary(StoreAdjustmentStep(b, g, now).value.log, now.date)
              == before.(adjustmentAdd := before.adjustmentAdd + g.amount.value)
  {
    var log := StoreAdjustmentStep(b, g, now).value.log;
    assert log == b.log + [log[|b.log|]];
    SummaryAppend(b.log, log[|b.log|], now.date);
  }

  /** The report date defaults to today, and the report carries that date's session row if there is one. */
  lemma DailyDefaultsToToday(log: seq<Record>, sessions: map<Date, Session>, today: Date)
    ensures Daily(log, sessions, None, today).date == today
    ensures Daily(log, sessions, None, today).session == (if today in sessions then Some(sessions[today]) else None)
  {}
}
