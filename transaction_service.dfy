/**
 * The four ledger operations of TransactionService. Each one runs inside
 * DB::transaction, so it is one atomic step: on failure nothing changes and no
 * record is appended. Each is given twice: as a step function on a Ledger value,
 * about which the properties are proved, and as a method that updates the
 * Database tables in place and is proved to perform exactly that step.
 */
module TransactionService {
  import opened Wrappers
  import opened Store
  import opened FeePolicy

  /** The `$data` a cash-in or cash-out reads (amount in centavos). */
  datatype CashRequest = CashRequest(
    gcashAccountId: Option<string>,
    amount: int,
    discounted: Option<bool>,
    reference: Option<string>,
    remarks: Option<string>,
    receiverName: Option<string>)

  /** The `$data` a capital move reads; `from`/`to` are "cash" or an account id as submitted. */
  datatype MoveRequest = MoveRequest(
    from: Option<string>,
    to: Option<string>,
    fromAccountId: Option<string>,
    toAccountId: Option<string>,
    amount: int,
    reference: Option<string>,
    remarks: Option<string>)

  /** The `$data` an adjustment reads. */
  datatype AdjustRequest = AdjustRequest(
    target: string,
    direction: string,
    amount: int,
    gcashAccountId: Option<string>,
    remarks: string)

  /** One call of the service. */
  datatype Operation =
    | CashInOp(cash: CashRequest)
    | CashOutOp(cash: CashRequest)
    | MoveCapitalOp(move: MoveRequest)
    | AdjustOp(adjust: AdjustRequest)

  function TypeOf(op: Operation): TxType {
    match op
    case CashInOp(_) => CashIn
    case CashOutOp(_) => CashOut
    case MoveCapitalOp(_) => CapitalMove
    case AdjustOp(_) => Adjustment
  }

  // ---------------------------------------------------------------------------
  // The records the operations insert.

  /** A cash-in or cash-out row carrying the given fee. */
  function CashRecordWithFee(kind: TxType, k: nat, r: CashRequest, fee: int, now: Instant): Record {
    Record(kind, Some(k), None, None, r.amount, fee, r.discounted.GetOr(false),
           Claimed, r.reference, r.remarks, r.receiverName, now, now)
  }

  function CashRecord(kind: TxType, k: nat, r: CashRequest, rates: FeeRates, now: Instant): Record {
    CashRecordWithFee(kind, k, r, ComputeFee(r.amount, r.discounted.GetOr(false), rates), now)
  }

  /** fee and discounted are not set, so they keep their column defaults 0 and false. */
  function MoveRecord(fromK: Option<nat>, toK: Option<nat>, r: MoveRequest, now: Instant): Record {
    Record(CapitalMove, None, fromK, toK, r.amount, 0, false, Claimed, r.reference, r.remarks, None, now, now)
  }

  /** The amount is stored as given, whatever the direction. */
  function AdjustRecord(k: Option<nat>, r: AdjustRequest, now: Instant): Record {
    Record(Adjustment, k, None, None, r.amount, 0, false, Claimed, None, Some(r.remarks), None, now, now)
  }

  // ---------------------------------------------------------------------------
  // The steps.

  /** cashIn: the account sends `amount` (its balance falls) and the cash wallet receives it. */
  function CashInStep(b: Ledger, r: CashRequest, rates: FeeRates, now: Instant): Result<Ledger, Failure> {
    var k := Resolve(b.accounts, r.gcashAccountId);
    if k.None? then Failure(AccountNotFound)
    else if b.wallet.None? then Failure(WalletNotFound)
    else Success(Ledger(Some(b.wallet.value + r.amount), Shift(b.accounts, k.value, -r.amount),
                        b.log + [CashRecord(CashIn, k.value, r, rates, now)]))
  }

  /** cashOut: the account receives `amount` and the cash wallet pays it out. */
  function CashOutStep(b: Ledger, r: CashRequest, rates: FeeRates, now: Instant): Result<Ledger, Failure> {
    var k := Resolve(b.accounts, r.gcashAccountId);
    if k.None? then Failure(AccountNotFound)
    else if b.wallet.None? then Failure(WalletNotFound)
    else Success(Ledger(Some(b.wallet.value - r.amount), Shift(b.accounts, k.value, r.amount),
                        b.log + [CashRecord(CashOut, k.value, r, rates, now)]))
  }

  /**
   * cashIn (kind CashIn) or cashOut (kind CashOut) exactly as written: the account and
   * the wallet are looked up, the balances move, and then computeFee reads the
   * fee_settings row; a null fee reaching the float return type throws, and the whole
   * step rolls back. The rest of the model uses CashInStep and CashOutStep, which
   * charge the corrected fee.
   */
  function CashStepAsWritten(kind: TxType, b: Ledger, r: CashRequest, row: SettingsRow, now: Instant): Result<Ledger, Failure>
    requires kind == CashIn || kind == CashOut
  {
    var k := Resolve(b.accounts, r.gcashAccountId);
    var fee := ComputeFeeAsWritten(r.amount, r.discounted.GetOr(false), row);
    var toWallet := if kind == CashIn then r.amount else -r.amount;
    if k.None? then Failure(AccountNotFound)
    else if b.wallet.None? then Failure(WalletNotFound)
    else if fee.None? then Failure(FeeTypeError)
    else Success(Ledger(Some(b.wallet.value + toWallet), Shift(b.accounts, k.value, -toWallet),
                        b.log + [CashRecordWithFee(kind, k.value, r, fee.value, now)]))
  }

  /** The accounts after a capital move: the source account (if found) debited, then the destination (if found) credited. */
  function MovedAccounts(accounts: map<nat, Account>, fromK: Option<nat>, toK: Option<nat>, amount: int): (r: map<nat, Account>)
    requires fromK.Some? ==> fromK.value in accounts
    requires toK.Some? ==> toK.value in accounts
    ensures r.Keys == accounts.Keys
  {
    var afterFrom := if fromK.Some? then Shift(accounts, fromK.value, -amount) else accounts;
    if toK.Some? then Shift(afterFrom, toK.value, amount) else afterFrom
  }

  /** The wallet after a capital move: debited when `from` is "cash", credited when `to` is. */
  function MovedWallet(wallet: int, r: MoveRequest): int {
    var afterFrom := if r.from == Some("cash") then wallet - r.amount else wallet;
    if r.to == Some("cash") then afterFrom + r.amount else afterFrom
  }

  /**
   * moveCapital. An account id that does not name an account is skipped when the
   * balances move, but it is still inserted into from_account_id/to_account_id,
   * whose foreign keys then reject the row. Touching the wallet when there is none
   * is a call on null. Either failure rolls the whole step back.
   */
  function MoveCapitalStep(b: Ledger, r: MoveRequest, now: Instant): Result<Ledger, Failure> {
    var fromK := Resolve(b.accounts, r.fromAccountId);
    var toK := Resolve(b.accounts, r.toAccountId);
    if (r.from == Some("cash") || r.to == Some("cash")) && b.wallet.None? then Failure(NullWallet)
    else if (r.fromAccountId.Some? && fromK.None?) || (r.toAccountId.Some? && toK.None?) then Failure(ForeignKeyViolation)
    else
      Success(Ledger(
        if b.wallet.Some? then Some(MovedWallet(b.wallet.value, r)) else None,
        MovedAccounts(b.accounts, fromK, toK, r.amount),
        b.log + [MoveRecord(fromK, toK, r, now)]))
  }

  /** +amount for direction "add", -amount for anything else. */
  function Signed(r: AdjustRequest): int {
    if r.direction == "add" then r.amount else -r.amount
  }

  /**
   * adjust: the wallet is created with balance 0 if absent; target "cash" moves the
   * wallet, target "gcash" moves the named account (findOrFail), any other target
   * moves nothing. A gcash_account_id given with another target is stored as is,
   * so it too must name an account.
   */
  function AdjustStep(b: Ledger, r: AdjustRequest, now: Instant): Result<Ledger, Failure> {
    var wallet := b.wallet.GetOr(0);
    var k := Resolve(b.accounts, r.gcashAccountId);
    if r.target == "gcash" && k.None? then Failure(AccountNotFound)
    else if r.gcashAccountId.Some? && k.None? then Failure(ForeignKeyViolation)
    else
      Success(Ledger(
        Some(if r.target == "cash" then wallet + Signed(r) else wallet),
        if r.target == "gcash" then Shift(b.accounts, k.value, Signed(r)) else b.accounts,
        b.log + [AdjustRecord(k, r, now)]))
  }

  function Apply(b: Ledger, op: Operation, rates: FeeRates, now: Instant): Result<Ledger, Failure> {
    match op
    case CashInOp(r) => CashInStep(b, r, rates, now)
    case CashOutOp(r) => CashOutStep(b, r, rates, now)
    case MoveCapitalOp(r) => MoveCapitalStep(b, r, now)
    case AdjustOp(r) => AdjustStep(b, r, now)
  }

  // ---------------------------------------------------------------------------
  // Properties of the steps.

  /** A cash-in fails exactly when the account id or the wallet is missing; the activity flag is never consulted. */
  lemma CashInFailsOnlyWhenMissing(b: Ledger, r: CashRequest, rates: FeeRates, now: Instant)
    ensures CashInStep(b, r, rates, now).Failure?
        <==> Resolve(b.accounts, r.gcashAccountId).None? || b.wallet.None?
    ensures CashOutStep(b, r, rates, now).Failure?
        <==> Resolve(b.accounts, r.gcashAccountId).None? || b.wallet.None?
  {}

  /**
   * As written, every cash-in and cash-out of 500 to 999 pesos fails and leaves the
   * ledger unchanged, even with the account and the wallet present, where the corrected
   * step succeeds.
   */
  lemma CashAsWrittenFailsMiddleTier(kind: TxType, b: Ledger, r: CashRequest, row: SettingsRow, now: Instant)
    requires kind == CashIn || kind == CashOut
    requires FeeColumns <= row.Keys && "five_to_999_fee" !in row.Keys
    requires FiveHundred <= r.amount < OneThousand
    ensures CashStepAsWritten(kind, b, r, row, now).Failure?
    ensures Committed(b, CashStepAsWritten(kind, b, r, row, now)) == b
    ensures Resolve(b.accounts, r.gcashAccountId).Some? && b.wallet.Some? ==>
              CashStepAsWritten(kind, b, r, row, now) == Failure(FeeTypeError)
              && CashInStep(b, r, RatesOf(row), now).Success? && CashOutStep(b, r, RatesOf(row), now).Success?
  {
    MiddleTierAsWrittenFails(r.amount, r.discounted.GetOr(false), row);
  }

  /** Outside the middle tier the steps as written are exactly the corrected cashIn and cashOut steps. */
  lemma CashAsWrittenAgreesOutsideMiddleTier(kind: TxType, b: Ledger, r: CashRequest, row: SettingsRow, now: Instant)
    requires kind == CashIn || kind == CashOut
    requires FeeColumns <= row.Keys
    requires r.amount < FiveHundred || r.amount >= OneThousand
    ensures kind == CashIn ==> CashStepAsWritten(kind, b, r, row, now) == CashInStep(b, r, RatesOf(row), now)
    ensures kind == CashOut ==> CashStepAsWritten(kind, b, r, row, now) == CashOutStep(b, r, RatesOf(row), now)
  {
    AsWrittenAgreesOutsideMiddleTier(r.amount, r.discounted.GetOr(false), row);
  }

  /** Deactivating an account does not change which id the lookup finds. */
  lemma LookupIgnoresActiveFlag(accounts: map<nat, Account>, k: nat, key: Option<string>)
    requires k in accounts
    ensures Resolve(accounts[k := accounts[k].(isActive := false)], key) == Resolve(accounts, key)
  {}

  /** cashIn moves `amount` from the account to the wallet, touches no other account and conserves the total. */
  lemma CashInMovesMoney(b: Ledger, r: CashRequest, rates: FeeRates, now: Instant)
    requires CashInStep(b, r, rates, now).Success?
    ensures var a := CashInStep(b, r, rates, now).value;
            var k := Resolve(b.accounts, r.gcashAccountId).value;
            && a.wallet == Some(b.wallet.value + r.amount)
            && a.accounts[k].balance == b.accounts[k].balance - r.amount
            && a.accounts[k].isActive == b.accounts[k].isActive
            && (forall j :: j in b.accounts && j != k ==> a.accounts[j] == b.accounts[j])
            && a.accounts.Keys == b.accounts.Keys
            && Total(a) == Total(b)
  {
    var k := Resolve(b.accounts, r.gcashAccountId).value;
    SumAfterShift(b.accounts, k, -r.amount);
  }

  /** cashOut is the mirror image: the account receives, the wallet pays, the total is conserved. */
  lemma CashOutMovesMoney(b: Ledger, r: CashRequest, rates: FeeRates, now: Instant)
    requires CashOutStep(b, r, rates, now).Success?
    ensures var a := CashOutStep(b, r, rates, now).value;
            var k := Resolve(b.accounts, r.gcashAccountId).value;
            && a.wallet == Some(b.wallet.value - r.amount)
            && a.accounts[k].balance == b.accounts[k].balance + r.amount
            && a.accounts[k].isActive == b.accounts[k].isActive
            && (forall j :: j in b.accounts && j != k ==> a.accounts[j] == b.accounts[j])
            && a.accounts.Keys == b.accounts.Keys
            && Total(a) == Total(b)
  {
    var k := Resolve(b.accounts, r.gcashAccountId).value;
    SumAfterShift(b.accounts, k, r.amount);
  }

  /** Cash-in and cash-out of the same amount and discount flag record the same fee, the one FeePolicy computes. */
  lemma CashFeesSymmetric(b: Ledger, r: CashRequest, rates: FeeRates, now: Instant)
    requires CashInStep(b, r, rates, now).Success? && CashOutStep(b, r, rates, now).Success?
    ensures var fin := CashInStep(b, r, rates, now).value.log[|b.log|].fee;
            var fout := CashOutStep(b, r, rates, now).value.log[|b.log|].fee;
            fin == fout == ComputeFee(r.amount, r.discounted.GetOr(false), rates)
  {}

  /** How many things a capital-move side names: an existing account, the wallet ("cash"), both, or neither. */
  function NamedCount(accountSide: Option<nat>, token: Option<string>): int {
    (if accountSide.Some? then 1 else 0) + (if token == Some("cash") then 1 else 0)
  }

  /** What a capital move takes out: `amount` from the source account if it resolved, and again from the wallet if `from` is "cash". */
  function Debited(b: Ledger, r: MoveRequest): int {
    (if Resolve(b.accounts, r.fromAccountId).Some? then r.amount else 0) + (if r.from == Some("cash") then r.amount else 0)
  }

  /** What a capital move puts in, on the destination side. */
  function Credited(b: Ledger, r: MoveRequest): int {
    (if Resolve(b.accounts, r.toAccountId).Some? then r.amount else 0) + (if r.to == Some("cash") then r.amount else 0)
  }

  lemma {:induction false} MovedAccountsSum(accounts: map<nat, Account>, fromK: Option<nat>, toK: Option<nat>, amount: int)
    requires fromK.Some? ==> fromK.value in accounts
    requires toK.Some? ==> toK.value in accounts
    ensures SumBalances(MovedAccounts(accounts, fromK, toK, amount), false)
         == SumBalances(accounts, false) - (if fromK.Some? then amount else 0) + (if toK.Some? then amount else 0)
  {
    if fromK.Some? && toK.Some? {
      var once := Shift(accounts, fromK.value, -amount);
      SumAfterShift(accounts, fromK.value, -amount);
      SumAfterShift(once, toK.value, amount);
    } else if fromK.Some? {
      SumAfterShift(accounts, fromK.value, -amount);
    } else if toK.Some? {
      SumAfterShift(accounts, toK.value, amount);
    }
  }

  /**
   * A capital move changes the total by what it credits minus what it debits. A side
   * whose id is null or not numeric is silently skipped, so the total is conserved
   * only when both sides move something.
   */
  lemma MoveCapitalTotal(b: Ledger, r: MoveRequest, now: Instant)
    requires MoveCapitalStep(b, r, now).Success?
    ensures Total(MoveCapitalStep(b, r, now).value) == Total(b) - Debited(b, r) + Credited(b, r)
  {
    var fromK := Resolve(b.accounts, r.fromAccountId);
    var toK := Resolve(b.accounts, r.toAccountId);
    var a := MoveCapitalStep(b, r, now).value;
    assert a.accounts == MovedAccounts(b.accounts, fromK, toK, r.amount);
    MovedAccountsSum(b.accounts, fromK, toK, r.amount);
  }

  /** When each side names exactly one thing (the wallet or an existing account), a capital move conserves the total. */
  lemma MoveCapitalConserves(b: Ledger, r: MoveRequest, now: Instant)
    requires MoveCapitalStep(b, r, now).Success?
    requires NamedCount(Resolve(b.accounts, r.fromAccountId), r.from) == 1
    requires NamedCount(Resolve(b.accounts, r.toAccountId), r.to) == 1
    ensures Total(MoveCapitalStep(b, r, now).value) == Total(b)
  {
    MoveCapitalTotal(b, r, now);
  }

  /** Between two different accounts, a capital move debits one, credits the other and leaves the rest and the wallet alone. */
  lemma MoveCapitalBetweenAccounts(b: Ledger, r: MoveRequest, now: Instant)
    requires MoveCapitalStep(b, r, now).Success?
    requires r.from != Some("cash") && r.to != Some("cash")
    requires Resolve(b.accounts, r.fromAccountId).Some? && Resolve(b.accounts, r.toAccountId).Some?
    requires Resolve(b.accounts, r.fromAccountId) != Resolve(b.accounts, r.toAccountId)
    ensures var a := MoveCapitalStep(b, r, now).value;
            var f := Resolve(b.accounts, r.fromAccountId).value;
            var t := Resolve(b.accounts, r.toAccountId).value;
            && a.wallet == b.wallet
            && a.accounts[f].balance == b.accounts[f].balance - r.amount
            && a.accounts[t].balance == b.accounts[t].balance + r.amount
            && a.accounts[f].isActive == b.accounts[f].isActive
            && a.accounts[t].isActive == b.accounts[t].isActive
            && a.accounts.Keys == b.accounts.Keys
            && (forall j :: j in b.accounts && j != f && j != t ==> a.accounts[j] == b.accounts[j])
  {}

  /**
   * Every balance after a capital move: the wallet loses the amount when `from` is
   * "cash" and gains it when `to` is; each account loses it when it is the resolved
   * source and gains it when it is the resolved destination; ids and flags stay.
   */
  lemma MoveCapitalBalances(b: Ledger, r: MoveRequest, now: Instant)
    requires MoveCapitalStep(b, r, now).Success?
    ensures var a := MoveCapitalStep(b, r, now).value;
            && (b.wallet.Some? ==>
                  a.wallet == Some(b.wallet.value - (if r.from == Some("cash") then r.amount else 0)
                                                  + (if r.to == Some("cash") then r.amount else 0)))
            && (b.wallet.None? ==> a.wallet == None && r.from != Some("cash") && r.to != Some("cash"))
    ensures var a := MoveCapitalStep(b, r, now).value;
            var fromK := Resolve(b.accounts, r.fromAccountId);
            var toK := Resolve(b.accounts, r.toAccountId);
            && a.accounts.Keys == b.accounts.Keys
            && forall j :: j in b.accounts ==>
                 && a.accounts[j].isActive == b.accounts[j].isActive
                 && a.accounts[j].balance == b.accounts[j].balance - (if fromK == Some(j) then r.amount else 0)
                                                                  + (if toK == Some(j) then r.amount else 0)
  {
    var fromK := Resolve(b.accounts, r.fromAccountId);
    var toK := Resolve(b.accounts, r.toAccountId);
    var a := MoveCapitalStep(b, r, now).value;
    var afterFrom := if fromK.Some? then Shift(b.accounts, fromK.value, -r.amount) else b.accounts;
    assert a.accounts == (if toK.Some? then Shift(afterFrom, toK.value, r.amount) else afterFrom);
    forall j | j in b.accounts
      ensures a.accounts[j].isActive == b.accounts[j].isActive
      ensures a.accounts[j].balance == b.accounts[j].balance - (if fromK == Some(j) then r.amount else 0)
                                                             + (if toK == Some(j) then r.amount else 0)
    {
      assert afterFrom[j].isActive == b.accounts[j].isActive;
      assert afterFrom[j].balance == b.accounts[j].balance - (if fromK == Some(j) then r.amount else 0);
    }
  }

  /** A capital move records no fee and stores the ids that resolved. */
  lemma MoveCapitalRecord(b: Ledger, r: MoveRequest, now: Instant)
    requires MoveCapitalStep(b, r, now).Success?
    ensures var rec := MoveCapitalStep(b, r, now).value.log[|b.log|];
            && rec.fee == 0 && !rec.discounted
            && rec.fromAccountId == Resolve(b.accounts, r.fromAccountId)
            && rec.toAccountId == Resolve(b.accounts, r.toAccountId)
  {}

  /**
   * An adjustment with target "cash" or "gcash" moves exactly one balance by +amount
   * ("add") or -amount (otherwise), and the total by the same; the record keeps the raw
   * amount whatever the direction.
   */
  lemma AdjustMovesOneBalance(b: Ledger, r: AdjustRequest, now: Instant)
    requires AdjustStep(b, r, now).Success?
    requires r.target == "cash" || r.target == "gcash"
    ensures var a := AdjustStep(b, r, now).value;
            && a.log[|b.log|].amount == r.amount
            && Total(a) == Total(b) + Signed(r)
            && (r.target == "cash" ==> a.wallet == Some(b.wallet.GetOr(0) + Signed(r)) && a.accounts == b.accounts)
            && (r.target == "gcash" ==>
                  var k := Resolve(b.accounts, r.gcashAccountId).value;
                  && a.wallet == Some(b.wallet.GetOr(0))
                  && a.accounts[k].balance == b.accounts[k].balance + Signed(r)
                  && a.accounts[k].isActive == b.accounts[k].isActive
                  && a.accounts.Keys == b.accounts.Keys
                  && (forall j :: j in b.accounts && j != k ==> a.accounts[j] == b.accounts[j]))
  {
    if r.target == "gcash" {
      SumAfterShift(b.accounts, Resolve(b.accounts, r.gcashAccountId).value, Signed(r));
    }
  }

  /** Every successful step appends exactly one record, of the operation's type, claimed at `now`, and keeps the old log as a prefix. */
  lemma ApplyAppendsOneRecord(b: Ledger, op: Operation, rates: FeeRates, now: Instant)
    requires Apply(b, op, rates, now).Success?
    ensures var log := Apply(b, op, rates, now).value.log;
            && |log| == |b.log| + 1
            && log[..|b.log|] == b.log
            && log[|b.log|].txType == TypeOf(op)
            && log[|b.log|].status == Claimed
            && log[|b.log|].claimedAt == now
            && log[|b.log|].createdAt == now
  {}

  /** The steps keep the log well formed and its account references intact. */
  lemma ApplyPreservesInvariants(b: Ledger, op: Operation, rates: FeeRates, now: Instant)
    requires Apply(b, op, rates, now).Success?
    requires WellFormedLog(b.log) && ReferencesResolve(b)
    ensures WellFormedLog(Apply(b, op, rates, now).value.log)
    ensures ReferencesResolve(Apply(b, op, rates, now).value)
  {
    var a := Apply(b, op, rates, now).value;
    assert a.accounts.Keys == b.accounts.Keys;
    assert a.log == b.log + [a.log[|b.log|]];
  }

  /** Whether it succeeds or rolls back, every operation keeps the ledger consistent. */
  lemma CommittedKeepsConsistent(b: Ledger, op: Operation, rates: FeeRates, now: Instant)
    ensures Consistent(b) ==> Consistent(Committed(b, Apply(b, op, rates, now)))
  {
    if Consistent(b) && Apply(b, op, rates, now).Success? {
      ApplyPreservesInvariants(b, op, rates, now);
    }
  }

  // ---------------------------------------------------------------------------
  // The operations on the database. Each works on local copies and commits them
  // at the end, so a failure leaves the tables as they were.

  /** cashIn; also returns the previous balance the source captures (and then drops, since it is not fillable). */
  method CashInMethod(db: Database, r: CashRequest, rates: FeeRates, now: Instant)
    returns (outcome: Result<Record, Failure>, previousBalance: int)
    modifies db
    ensures db.Snapshot() == Committed(old(db.Snapshot()), CashInStep(old(db.Snapshot()), r, rates, now))
    ensures db.sessions == old(db.sessions)
    ensures Consistent(old(db.Snapshot())) ==> Consistent(db.Snapshot())
    ensures outcome.Success? <==> CashInStep(old(db.Snapshot()), r, rates, now).Success?
    ensures outcome.Success? ==> outcome.value == db.transactions[|db.transactions| - 1]
    ensures outcome.Success? ==> previousBalance == old(db.accounts)[outcome.value.gcashAccountId.value].balance
  {
    CommittedKeepsConsistent(db.Snapshot(), CashInOp(r), rates, now);
    previousBalance := 0;
    var k := Resolve(db.accounts, r.gcashAccountId);
    if k.None? {
      return Failure(AccountNotFound), previousBalance;
    }
    if db.wallet.None? {
      return Failure(WalletNotFound), previousBalance;
    }
    var id := k.value;
    previousBalance := db.accounts[id].balance;
    db.accounts := Shift(db.accounts, id, -r.amount);
    db.wallet := Some(db.wallet.value + r.amount);
    var rec := CashRecord(CashIn, id, r, rates, now);
    db.transactions := db.transactions + [rec];
    outcome := Success(rec);
  }

  /** cashOut, the mirror image of CashInMethod. */
  method CashOutMethod(db: Database, r: CashRequest, rates: FeeRates, now: Instant)
    returns (outcome: Result<Record, Failure>, previousBalance: int)
    modifies db
    ensures db.Snapshot() == Committed(old(db.Snapshot()), CashOutStep(old(db.Snapshot()), r, rates, now))
    ensures db.sessions == old(db.sessions)
    ensures Consistent(old(db.Snapshot())) ==> Consistent(db.Snapshot())
    ensures outcome.Success? <==> CashOutStep(old(db.Snapshot()), r, rates, now).Success?
    ensures outcome.Success? ==> outcome.value == db.transactions[|db.transactions| - 1]
    ensures outcome.Success? ==> previousBalance == old(db.accounts)[outcome.value.gcashAccountId.value].balance
  {
    CommittedKeepsConsistent(db.Snapshot(), CashOutOp(r), rates, now);
    previousBalance := 0;
    var k := Resolve(db.accounts, r.gcashAccountId);
    if k.None? {
      return Failure(AccountNotFound), previousBalance;
    }
    if db.wallet.None? {
      return Failure(WalletNotFound), previousBalance;
    }
    var id := k.value;
    previousBalance := db.accounts[id].balance;
    db.accounts := Shift(db.accounts, id, r.amount);
    db.wallet := Some(db.wallet.value - r.amount);
    var rec := CashRecord(CashOut, id, r, rates, now);
    db.transactions := db.transactions + [rec];
    outcome := Success(rec);
  }

  /** moveCapital: the balance updates happen first and are rolled back if the wallet or the insert fails. */
  method MoveCapitalMethod(db: Database, r: MoveRequest, now: Instant) returns (outcome: Result<Record, Failure>)
    modifies db
    ensures db.Snapshot() == Committed(old(db.Snapshot()), MoveCapitalStep(old(db.Snapshot()), r, now))
    ensures db.sessions == old(db.sessions)
    ensures Consistent(old(db.Snapshot())) ==> Consistent(db.Snapshot())
    ensures outcome.Success? <==> MoveCapitalStep(old(db.Snapshot()), r, now).Success?
    ensures outcome.Success? ==> outcome.value == db.transactions[|db.transactions| - 1]
  {
    CommittedKeepsConsistent(db.Snapshot(), MoveCapitalOp(r), DefaultRates, now);
    var fromK := Resolve(db.accounts, r.fromAccountId);
    var toK := Resolve(db.accounts, r.toAccountId);
    var accounts := db.accounts;
    if fromK.Some? { accounts := Shift(accounts, fromK.value, -r.amount); }
    if toK.Some? { accounts := Shift(accounts, toK.value, r.amount); }
    var wallet := db.wallet;
    if r.from == Some("cash") {
      if wallet.None? { return Failure(NullWallet); }
      wallet := Some(wallet.value - r.amount);
    }
    if r.to == Some("cash") {
      if wallet.None? { return Failure(NullWallet); }
      wallet := Some(wallet.value + r.amount);
    }
    if (r.fromAccountId.Some? && fromK.None?) || (r.toAccountId.Some? && toK.None?) {
      return Failure(ForeignKeyViolation);
    }
    var rec := MoveRecord(fromK, toK, r, now);
    db.accounts, db.wallet, db.transactions := accounts, wallet, db.transactions + [rec];
    outcome := Success(rec);
  }

  /** adjust: the wallet created by firstOrCreate is rolled back too when the account lookup fails. */
  method AdjustMethod(db: Database, r: AdjustRequest, now: Instant) returns (outcome: Result<Record, Failure>)
    modifies db
    ensures db.Snapshot() == Committed(old(db.Snapshot()), AdjustStep(old(db.Snapshot()), r, now))
    ensures db.sessions == old(db.sessions)
    ensures Consistent(old(db.Snapshot())) ==> Consistent(db.Snapshot())
    ensures outcome.Success? <==> AdjustStep(old(db.Snapshot()), r, now).Success?
    ensures outcome.Success? ==> outcome.value == db.transactions[|db.transactions| - 1]
  {
    CommittedKeepsConsistent(db.Snapshot(), AdjustOp(r), DefaultRates, now);
    var wallet := if db.wallet.None? then 0 else db.wallet.value;
    var accounts := db.accounts;
    var delta := Signed(r);
    if r.target == "cash" {
      wallet := wallet + delta;
    }
    var k := Resolve(accounts, r.gcashAccountId);
    if r.target == "gcash" {
      if k.None? { return Failure(AccountNotFound); }
      accounts := Shift(accounts, k.value, delta);
    }
    if r.gcashAccountId.Some? && k.None? {
      return Failure(ForeignKeyViolation);
    }
    var rec := AdjustRecord(k, r, now);
    db.accounts, db.wallet, db.transactions := accounts, Some(wallet), db.transactions + [rec];
    outcome := Success(rec);
  }
}
