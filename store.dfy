/**
 * The tables the ledger works on: the single cash wallet, the GCash accounts,
 * the append-only transactions table and the date-keyed daily sessions.
 * Money is held in integer centavos, since every money column is decimal(…, 2).
 */
module Store {
  import opened Wrappers
  import opened PhpValues

  /** A calendar day, as `today()` and `whereDate` see it. */
  type Date = int

  /** A timestamp: the day and the second within it. */
  datatype Instant = Instant(date: Date, secondOfDay: nat)

  /** A row of gcash_accounts: its balance and whether it is active. */
  datatype Account = Account(balance: int, isActive: bool)

  /** The `type` enum of the transactions table. */
  datatype TxType = CashIn | CashOut | CapitalMove | Adjustment

  /** The `status` enum of the transactions table. */
  datatype Status = Pending | Claimed

  /**
   * A stored transactions row. There is no previous_balance: the service computes
   * one, but the Transaction model does not list it as fillable, so it is dropped.
   */
  datatype Record = Record(
    txType: TxType,
    gcashAccountId: Option<nat>,
    fromAccountId: Option<nat>,
    toAccountId: Option<nat>,
    amount: int,
    fee: int,
    discounted: bool,
    status: Status,
    reference: Option<string>,
    remarks: Option<string>,
    receiverName: Option<string>,
    claimedAt: Instant,
    createdAt: Instant)

  /** The balances and the transaction log; `wallet` is None while no cash_wallets row exists. */
  datatype Ledger = Ledger(wallet: Option<int>, accounts: map<nat, Account>, log: seq<Record>)

  /** A daily_sessions row (its date is the key of the sessions map). */
  datatype Session = Session(startingCash: int, startingGcash: int, notes: Option<string>)

  /** Why an operation was rolled back or refused. */
  datatype Failure =
    | ValidationFailed     // the request validator rejected the input
    | AccountNotFound      // findOrFail on gcash_accounts
    | WalletNotFound       // firstOrFail on cash_wallets
    | NullWallet           // a method called on CashWallet::first() when there is no wallet
    | ForeignKeyViolation  // an inserted account id names no gcash_accounts row
    | FeeTypeError         // computeFee returned null where its return type demands a float

  /** The state after an all-or-nothing step: the new state on success, the old one on failure. */
  function Committed(b: Ledger, step: Result<Ledger, Failure>): Ledger {
    if step.Success? then step.value else b
  }

  /**
   * `GcashAccount::find($key)`: the key names an account when it spells an existing id.
   * The activity flag plays no part in the lookup.
   */
  function Resolve(accounts: map<nat, Account>, key: Option<string>): (k: Option<nat>)
    ensures k.Some? ==> k.value in accounts && key.Some? && IsDigitString(key.value)
    ensures k.Some? ==> k.value == DigitsValue(key.value)
    ensures key.Some? && IsDigitString(key.value) && DigitsValue(key.value) in accounts ==> k.Some?
  {
    if key.Some? && IsDigitString(key.value) && DigitsValue(key.value) in accounts
    then Some(DigitsValue(key.value))
    else None
  }

  /** `increment('balance', delta)` on account `k` (a decrement is a negative delta). */
  function Shift(accounts: map<nat, Account>, k: nat, delta: int): (r: map<nat, Account>)
    requires k in accounts
    ensures r.Keys == accounts.Keys
    ensures r[k] == accounts[k].(balance := accounts[k].balance + delta)
    ensures forall j :: j in accounts && j != k ==> r[j] == accounts[j]
  {
    accounts[k := accounts[k].(balance := accounts[k].balance + delta)]
  }

  // ---------------------------------------------------------------------------
  // Sums over the accounts table (`GcashAccount::sum('balance')`, with or without
  // `where('is_active', true)`), folded in increasing id order.

  /** What one account adds to a sum that may count active accounts only. */
  function Counted(a: Account, activeOnly: bool): int {
    if !activeOnly || a.isActive then a.balance else 0
  }

  /** Every non-empty set of ids has a least element. */
  lemma {:induction false} LeastOf(s: set<nat>) returns (least: nat)
    requires s != {}
    ensures least in s && forall j :: j in s ==> least <= j
  {
    var x :| x in s;
    if s == {x} {
      least := x;
    } else {
      var rest := s - {x};
      var k := LeastOf(rest);
      least := if x < k then x else k;
      forall j | j in s
        ensures least <= j
      {
        if j != x { assert j in rest; }
      }
    }
  }

  lemma LeastExists(s: set<nat>)
    requires s != {}
    ensures exists k :: k in s && forall j :: j in s ==> k <= j
  {
    var k := LeastOf(s);
  }

  /** The smallest account id. */
  function LeastKey(m: map<nat, Account>): (k: nat)
    requires m != map[]
    ensures k in m && forall j :: j in m ==> k <= j
  {
    LeastExists(m.Keys);
    var k :| k in m && forall j :: j in m ==> k <= j;
    k
  }

  function SumBalances(m: map<nat, Account>, activeOnly: bool): int
    decreases |m.Keys|
  {
    if m == map[] then 0
    else
      var k := LeastKey(m);
      assert (m - {k}).Keys == m.Keys - {k};
      Counted(m[k], activeOnly) + SumBalances(m - {k}, activeOnly)
  }

  /** Any account can be taken out of the sum first. */
  lemma {:induction false} SumRemove(m: map<nat, Account>, k: nat, activeOnly: bool)
    requires k in m
    ensures SumBalances(m, activeOnly) == Counted(m[k], activeOnly) + SumBalances(m - {k}, activeOnly)
    decreases |m.Keys|
  {
    var j := LeastKey(m);
    if j != k {
      var rest := m - {j};
      assert rest.Keys == m.Keys - {j};
      SumRemove(rest, k, activeOnly);
      var mk := m - {k};
      assert j in mk;
      var jk := LeastKey(mk);
      assert jk in m;
      assert jk == j;
      assert mk - {j} == rest - {k};
    }
  }

  /** Changing one account changes the sum by exactly the change of its counted balance. */
  lemma SumAfterUpdate(m: map<nat, Account>, k: nat, a: Account, activeOnly: bool)
    requires k in m
    ensures SumBalances(m[k := a], activeOnly)
         == SumBalances(m, activeOnly) - Counted(m[k], activeOnly) + Counted(a, activeOnly)
  {
    SumRemove(m, k, activeOnly);
    SumRemove(m[k := a], k, activeOnly);
    assert m[k := a] - {k} == m - {k};
  }

  /** A balance shift moves the all-accounts sum by exactly the shift. */
  lemma SumAfterShift(m: map<nat, Account>, k: nat, delta: int)
    requires k in m
    ensures SumBalances(Shift(m, k, delta), false) == SumBalances(m, false) + delta
  {
    SumAfterUpdate(m, k, m[k].(balance := m[k].balance + delta), false);
  }

  /** When every account is active, the active-only sum is the sum of all balances. */
  lemma {:induction false} ActiveSumWhenAllActive(m: map<nat, Account>)
    requires forall k :: k in m ==> m[k].isActive
    ensures SumBalances(m, true) == SumBalances(m, false)
    decreases |m.Keys|
  {
    if m != map[] {
      var k :| k in m;
      SumRemove(m, k, true);
      SumRemove(m, k, false);
      assert (m - {k}).Keys == m.Keys - {k};
      ActiveSumWhenAllActive(m - {k});
    }
  }

  /** An inactive account contributes nothing to the active-only sum, whatever its balance. */
  lemma ActiveSumIgnoresInactive(m: map<nat, Account>, k: nat, balance: int)
    requires k in m && !m[k].isActive
    ensures SumBalances(m[k := Account(balance, false)], true) == SumBalances(m, true)
  {
    SumAfterUpdate(m, k, Account(balance, false), true);
  }

  /** Cash on hand plus every account balance (inactive ones included); no wallet counts as zero. */
  function Total(b: Ledger): int {
    b.wallet.GetOr(0) + SumBalances(b.accounts, false)
  }

  // ---------------------------------------------------------------------------
  // Filtered sums over the transactions table (`where(...)->sum(column)`).

  /** What one record adds to a filtered sum. */
  function Contribution(r: Record, keep: Record -> bool, value: Record -> int): int {
    if keep(r) then value(r) else 0
  }

  function SumWhere(log: seq<Record>, keep: Record -> bool, value: Record -> int): int {
    if log == [] then 0
    else SumWhere(log[..|log| - 1], keep, value) + Contribution(log[|log| - 1], keep, value)
  }

  /** A sum over records that all contribute nothing is zero. */
  lemma {:induction false} SumWhereZero(log: seq<Record>, keep: Record -> bool, value: Record -> int)
    requires forall i :: 0 <= i < |log| ==> Contribution(log[i], keep, value) == 0
    ensures SumWhere(log, keep, value) == 0
  {
    if log != [] {
      var init := log[..|log| - 1];
      assert forall i :: 0 <= i < |init| ==> init[i] == log[i];
      SumWhereZero(init, keep, value);
    }
  }

  /** Two filtered sums agree when every record contributes the same to both. */
  lemma {:induction false} SumWhereSame(log: seq<Record>, keep1: Record -> bool, value1: Record -> int,
                                        keep2: Record -> bool, value2: Record -> int)
    requires forall i :: 0 <= i < |log| ==> Contribution(log[i], keep1, value1) == Contribution(log[i], keep2, value2)
    ensures SumWhere(log, keep1, value1) == SumWhere(log, keep2, value2)
  {
    if log != [] {
      var init := log[..|log| - 1];
      assert forall i :: 0 <= i < |init| ==> init[i] == log[i];
      SumWhereSame(init, keep1, value1, keep2, value2);
    }
  }

  /** Appending a record adds exactly its contribution. */
  lemma SumWhereAppend(log: seq<Record>, r: Record, keep: Record -> bool, value: Record -> int)
    ensures SumWhere(log + [r], keep, value) == SumWhere(log, keep, value) + Contribution(r, keep, value)
  {
    assert (log + [r])[..|log|] == log;
  }

  // ---------------------------------------------------------------------------
  // The invariant of the tables the service writes.

  /**
   * The shape every record the service writes has: claimed, with claimed_at equal to
   * created_at, and a fee only on cash-in and cash-out.
   */
  predicate WellFormed(rec: Record) {
    && rec.status == Claimed
    && rec.claimedAt == rec.createdAt
    && (rec.txType == CapitalMove || rec.txType == Adjustment ==> rec.fee == 0)
  }

  predicate WellFormedLog(log: seq<Record>) {
    forall i :: 0 <= i < |log| ==> WellFormed(log[i])
  }

  /** Every stored account id names an account (the foreign keys of the transactions table). */
  predicate ReferencesResolve(b: Ledger) {
    forall i :: 0 <= i < |b.log| ==>
      && (b.log[i].gcashAccountId.Some? ==> b.log[i].gcashAccountId.value in b.accounts)
      && (b.log[i].fromAccountId.Some? ==> b.log[i].fromAccountId.value in b.accounts)
      && (b.log[i].toAccountId.Some? ==> b.log[i].toAccountId.value in b.accounts)
  }

  /** The ledger invariant: a well-formed log whose account references all resolve. */
  predicate Consistent(b: Ledger) {
    WellFormedLog(b.log) && ReferencesResolve(b)
  }

  // ---------------------------------------------------------------------------

  /** The database: the four tables the core reads and writes. */
  class Database {
    var wallet: Option<int>
    var accounts: map<nat, Account>
    var transactions: seq<Record>
    var sessions: map<Date, Session>

    constructor (wallet: Option<int>, accounts: map<nat, Account>)
      ensures Snapshot() == Ledger(wallet, accounts, []) && sessions == map[]
      ensures Consistent(Snapshot())
    {
      this.wallet := wallet;
      this.accounts := accounts;
      this.transactions := [];
      this.sessions := map[];
    }

    /** The ledger part of the database as a value. */
    function Snapshot(): Ledger
      reads this
    {
      Ledger(wallet, accounts, transactions)
    }
  }
}
