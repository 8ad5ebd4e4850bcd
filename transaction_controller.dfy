/**
 * TransactionController::store and ::storeAdjustment: request validation and the
 * dispatch of a validated request to exactly one TransactionService operation.
 * Form values are the strings left after Laravel's input middleware (trimmed, with
 * empty strings turned into null); amounts are in centavos, None when missing or not
 * numeric. A request that fails validation changes nothing.
 */
module TransactionController {
  import opened Wrappers
  import opened PhpValues
  import opened Store
  import opened FeePolicy
  import opened TransactionService

  /**
   * An optional field whose rule also fixes its type (`nullable|numeric`, `boolean`):
   * absent or null, a value of that type, or a value the type rule refuses.
   */
  datatype Input<+T> = Missing | Given(value: T) | IllTyped

  /** The fields store() validates. */
  datatype StoreForm = StoreForm(
    txType: Option<string>,
    gcashAccountId: Option<string>,
    from: Option<string>,
    to: Option<string>,
    amount: Option<int>,
    fee: Input<int>,
    discounted: Input<bool>,
    reference: Option<string>,
    receiverName: Option<string>,
    remarks: Option<string>)

  /** The fields storeAdjustment() validates. */
  datatype AdjustmentForm = AdjustmentForm(
    target: Option<string>,
    direction: Option<string>,
    amount: Option<int>,
    remarks: Option<string>,
    gcashAccountId: Option<string>)

  /** The types store() accepts; "adjustment" is not among them. */
  const StoreTypes: set<string> := {"cash_in", "cash_out", "capital_move"}

  /**
   * store()'s rules: a type among StoreTypes, an account id (if any) that exists,
   * an amount of at least one peso, a client fee (if any) that is a number and not
   * negative, and a discount flag (if any) that is a boolean.
   */
  predicate StoreValid(f: StoreForm, accounts: map<nat, Account>) {
    && f.txType.Some? && f.txType.value in StoreTypes
    && (f.gcashAccountId.Some? ==> Resolve(accounts, f.gcashAccountId).Some?)
    && f.amount.Some? && f.amount.value >= Peso
    && !f.fee.IllTyped? && (f.fee.Given? ==> f.fee.value >= 0)
    && !f.discounted.IllTyped?
  }

  /** storeAdjustment()'s rules. */
  predicate AdjustmentValid(f: AdjustmentForm) {
    && f.target.Some? && (f.target.value == "cash" || f.target.value == "gcash")
    && f.direction.Some? && (f.direction.value == "add" || f.direction.value == "deduct")
    && f.amount.Some? && f.amount.value >= Peso
    && f.remarks.Some? && 0 < |f.remarks.value| <= 255
    && (f.target.value == "gcash" ==> f.gcashAccountId.Some?)
  }

  /** `is_numeric($v) ? $v : null`: how `from`/`to` become from_account_id/to_account_id. */
  function AccountIdOf(v: Option<string>): Option<string> {
    if v.Some? && IsNumeric(v.value) then v else None
  }

  /** The validated discount flag as the service reads it (`$data['discounted'] ?? false`). */
  function DiscountOf(f: StoreForm): Option<bool> {
    if f.discounted.Given? then Some(f.discounted.value) else None
  }

  /** The `match` of store(): one service operation per accepted type. The client's `fee` is not passed on. */
  function Dispatch(f: StoreForm): Operation
    requires f.txType.Some? && f.txType.value in StoreTypes && f.amount.Some?
  {
    if f.txType.value == "cash_in" then
      CashInOp(CashRequest(f.gcashAccountId, f.amount.value, DiscountOf(f), f.reference, f.remarks, f.receiverName))
    else if f.txType.value == "cash_out" then
      CashOutOp(CashRequest(f.gcashAccountId, f.amount.value, DiscountOf(f), f.reference, f.remarks, f.receiverName))
    else
      MoveCapitalOp(MoveRequest(f.from, f.to, AccountIdOf(f.from), AccountIdOf(f.to), f.amount.value, f.reference, f.remarks))
  }

  function StoreStep(b: Ledger, f: StoreForm, rates: FeeRates, now: Instant): Result<Ledger, Failure> {
    if !StoreValid(f, b.accounts) then Failure(ValidationFailed)
    else Apply(b, Dispatch(f), rates, now)
  }

  function AdjustRequestOf(f: AdjustmentForm): AdjustRequest
    requires AdjustmentValid(f)
  {
    AdjustRequest(f.target.value, f.direction.value, f.amount.value, f.gcashAccountId, f.remarks.value)
  }

  function StoreAdjustmentStep(b: Ledger, f: AdjustmentForm, now: Instant): Result<Ledger, Failure> {
    if !AdjustmentValid(f) then Failure(ValidationFailed)
    else AdjustStep(b, AdjustRequestOf(f), now)
  }

  // ---------------------------------------------------------------------------

  /**
   * Each accepted type goes to the service operation it names and to no other, never
   * to adjust, and the operation receives the submitted account id, amount and flag.
   */
  lemma DispatchRoutesByType(f: StoreForm, accounts: map<nat, Account>)
    requires StoreValid(f, accounts)
    ensures Dispatch(f).CashInOp? <==> f.txType == Some("cash_in")
    ensures Dispatch(f).CashOutOp? <==> f.txType == Some("cash_out")
    ensures Dispatch(f).MoveCapitalOp? <==> f.txType == Some("capital_move")
    ensures !Dispatch(f).AdjustOp?
    ensures Dispatch(f).CashInOp? || Dispatch(f).CashOutOp? ==>
              && Dispatch(f).cash.gcashAccountId == f.gcashAccountId
              && Dispatch(f).cash.amount == f.amount.value
              && Dispatch(f).cash.discounted.GetOr(false) == (f.discounted == Given(true))
    ensures Dispatch(f).MoveCapitalOp? ==>
              && Dispatch(f).move.from == f.from && Dispatch(f).move.to == f.to
              && Dispatch(f).move.amount == f.amount.value
  {}

  /** store() refuses a request whose fee is not numeric or whose discount flag is not a boolean, and writes nothing. */
  lemma IllTypedFieldsRefused(b: Ledger, f: StoreForm, rates: FeeRates, now: Instant)
    requires f.fee.IllTyped? || f.discounted.IllTyped?
    ensures StoreStep(b, f, rates, now) == Failure(ValidationFailed)
    ensures Committed(b, StoreStep(b, f, rates, now)) == b
  {}

  /** An adjustment can never be recorded through store(). */
  lemma StoreNeverRecordsAdjustment(b: Ledger, f: StoreForm, rates: FeeRates, now: Instant)
    requires StoreStep(b, f, rates, now).Success?
    ensures StoreStep(b, f, rates, now).value.log[|b.log|].txType != Adjustment
  {
    ApplyAppendsOneRecord(b, Dispatch(f), rates, now);
  }

  /** "cash" never becomes an account id. */
  lemma CashNeverBecomesAccountId()
    ensures AccountIdOf(Some("cash")) == None
  {
    CashIsNotNumeric();
  }

  /**
   * The client-submitted fee is validated but has no other effect: any two valid fees
   * give the same outcome, and a negative or non-numeric one is refused.
   */
  lemma ClientFeeIgnored(b: Ledger, f: StoreForm, fee: Input<int>, rates: FeeRates, now: Instant)
    requires fee.Missing? || (fee.Given? && fee.value >= 0)
    ensures f.fee.Missing? || (f.fee.Given? && f.fee.value >= 0) ==>
              StoreStep(b, f.(fee := fee), rates, now) == StoreStep(b, f, rates, now)
    ensures f.fee.IllTyped? || (f.fee.Given? && f.fee.value < 0) ==> StoreStep(b, f, rates, now) == Failure(ValidationFailed)
  {
    if StoreValid(f, b.accounts) {
      assert Dispatch(f.(fee := fee)) == Dispatch(f);
    }
  }

  /** Whether a capital-move side submitted as `v` moves a balance when store() accepts it: it is "cash" or numeric. */
  predicate MovesBalance(v: Option<string>) {
    v == Some("cash") || (v.Some? && IsNumeric(v.value))
  }

  lemma {:induction false} MovesBalanceMatchesService(b: Ledger, v: Option<string>)
    requires AccountIdOf(v).Some? ==> Resolve(b.accounts, AccountIdOf(v)).Some?
    ensures NamedCount(Resolve(b.accounts, AccountIdOf(v)), v) == (if MovesBalance(v) then 1 else 0)
  {
    CashNeverBecomesAccountId();
    if v == Some("cash") {
      assert AccountIdOf(v) == None;
    }
  }

  /**
   * Through store(), a capital move's side moves a balance exactly when it is "cash"
   * or numeric (a numeric id that names no account fails the insert), so the total
   * gains the amount for the destination and loses it for the source exactly then.
   */
  lemma StoreCapitalMoveTotal(b: Ledger, f: StoreForm, rates: FeeRates, now: Instant)
    requires StoreStep(b, f, rates, now).Success?
    requires f.txType == Some("capital_move")
    ensures Total(StoreStep(b, f, rates, now).value)
         == Total(b) - (if MovesBalance(f.from) then f.amount.value else 0) + (if MovesBalance(f.to) then f.amount.value else 0)
  {
    var r := Dispatch(f).move;
    MoveCapitalTotal(b, r, now);
    MovesBalanceMatchesService(b, f.from);
    MovesBalanceMatchesService(b, f.to);
  }

  /** Every cash-in and cash-out accepted by store() conserves the total, and so does every capital move whose two sides both move or both do not. */
  lemma StoreConserves(b: Ledger, f: StoreForm, rates: FeeRates, now: Instant)
    requires StoreStep(b, f, rates, now).Success?
    requires f.txType == Some("capital_move") ==> (MovesBalance(f.from) <==> MovesBalance(f.to))
    ensures Total(StoreStep(b, f, rates, now).value) == Total(b)
  {
    match Dispatch(f)
    case CashInOp(r) => CashInMovesMoney(b, r, rates, now);
    case CashOutOp(r) => CashOutMovesMoney(b, r, rates, now);
    case MoveCapitalOp(r) => StoreCapitalMoveTotal(b, f, rates, now);
  }

  /**
   * A validated adjustment moves exactly one balance: the wallet for "cash", the named
   * account for "gcash"; "add" adds the amount and "deduct" subtracts it.
   */
  lemma StoreAdjustmentMovesOneBalance(b: Ledger, f: AdjustmentForm, now: Instant)
    requires StoreAdjustmentStep(b, f, now).Success?
    ensures var a := StoreAdjustmentStep(b, f, now).value;
            var delta := Signed(AdjustRequestOf(f));
            && (f.direction == Some("add") ==> delta == f.amount.value)
            && (f.direction == Some("deduct") ==> delta == -f.amount.value)
            && Total(a) == Total(b) + delta
            && a.log[|b.log|].amount == f.amount.value
            && (f.target == Some("cash") ==> a.wallet == Some(b.wallet.GetOr(0) + delta) && a.accounts == b.accounts)
            && (f.target == Some("gcash") ==>
                  var k := Resolve(b.accounts, f.gcashAccountId).value;
                  && a.wallet == Some(b.wallet.GetOr(0))
                  && a.accounts[k].balance == b.accounts[k].balance + delta
                  && a.accounts[k].isActive == b.accounts[k].isActive
                  && a.accounts.Keys == b.accounts.Keys
                  && (forall j :: j in b.accounts && j != k ==> a.accounts[j] == b.accounts[j]))
  {
    AdjustMovesOneBalance(b, AdjustRequestOf(f), now);
  }

  /** A validated adjustment on an account fails exactly when the account id names no account. */
  lemma StoreAdjustmentNeedsAccount(b: Ledger, f: AdjustmentForm, now: Instant)
    requires AdjustmentValid(f) && f.target == Some("gcash")
    ensures StoreAdjustmentStep(b, f, now).Failure? <==> Resolve(b.accounts, f.gcashAccountId).None?
  {}

  /** Every stored amount is positive. */
  predicate AmountsPositive(log: seq<Record>) {
    forall i :: 0 <= i < |log| ==> log[i].amount > 0
  }

  /** Both controller entry points store only amounts of at least one peso, so they keep every amount positive. */
  lemma ControllersKeepAmountsPositive(b: Ledger, f: StoreForm, g: AdjustmentForm, rates: FeeRates, now: Instant)
    requires AmountsPositive(b.log)
    ensures StoreStep(b, f, rates, now).Success? ==> AmountsPositive(StoreStep(b, f, rates, now).value.log)
    ensures StoreAdjustmentStep(b, g, now).Success? ==> AmountsPositive(StoreAdjustmentStep(b, g, now).value.log)
  {
    if StoreStep(b, f, rates, now).Success? {
      var log := StoreStep(b, f, rates, now).value.log;
      ApplyAppendsOneRecord(b, Dispatch(f), rates, now);
      assert log == b.log + [log[|b.log|]];
    }
    if StoreAdjustmentStep(b, g, now).Success? {
      var log := StoreAdjustmentStep(b, g, now).value.log;
      assert log == b.log + [log[|b.log|]];
    }
  }

  // ---------------------------------------------------------------------------

  /** store(): validate, then call the one service operation the type selects. */
  method StoreMethod(db: Database, f: StoreForm, rates: FeeRates, now: Instant) returns (outcome: Result<Record, Failure>)
    modifies db
    ensures db.Snapshot() == Committed(old(db.Snapshot()), StoreStep(old(db.Snapshot()), f, rates, now))
    ensures db.sessions == old(db.sessions)
    ensures Consistent(old(db.Snapshot())) ==> Consistent(db.Snapshot())
    ensures outcome.Success? <==> StoreStep(old(db.Snapshot()), f, rates, now).Success?
  {
    if !StoreValid(f, db.accounts) {
      return Failure(ValidationFailed);
    }
    var op := Dispatch(f);
    match op
    case CashInOp(r) =>
      var previousBalance;
      outcome, previousBalance := CashInMethod(db, r, rates, now);
    case CashOutOp(r) =>
      var previousBalance;
      outcome, previousBalance := CashOutMethod(db, r, rates, now);
    case MoveCapitalOp(r) =>
      outcome := MoveCapitalMethod(db, r, now);
  }

  /** storeAdjustment(): validate, then adjust. */
  method StoreAdjustmentMethod(db: Database, f: AdjustmentForm, now: Instant) returns (outcome: Result<Record, Failure>)
    modifies db
    ensures db.Snapshot() == Committed(old(db.Snapshot()), StoreAdjustmentStep(old(db.Snapshot()), f, now))
    ensures db.sessions == old(db.sessions)
    ensures Consistent(old(db.Snapshot())) ==> Consistent(db.Snapshot())
    ensures outcome.Success? <==> StoreAdjustmentStep(old(db.Snapshot()), f, now).Success?
  {
    if !AdjustmentValid(f) {
      return Failure(ValidationFailed);
    }
    outcome := AdjustMethod(db, AdjustRequestOf(f), now);
  }
}
