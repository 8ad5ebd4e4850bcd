/**
 * DashboardController::index: makes sure a cash wallet exists, then reports the
 * active-account total, cash on hand, their sum, and today's fee income ("tubo").
 */
module Dashboard {
  import opened Wrappers
  import opened Store

  datatype Stats = Stats(totalGcash: int, cashOnHand: int, totalCapital: int, tuboToday: int)

  /** A cash-in or cash-out claimed on `today`. */
  predicate IsTubo(r: Record, today: Date) {
    (r.txType == CashIn || r.txType == CashOut) && r.claimedAt.date == today
  }

  /** The fees of today's cash-ins and cash-outs. */
  function TuboOn(log: seq<Record>, today: Date): int {
    SumWhere(log, (r: Record) => IsTubo(r, today), (r: Record) => r.fee)
  }

  function StatsOf(b: Ledger, today: Date): Stats
    requires b.wallet.Some?
  {
    var totalGcash := SumBalances(b.accounts, true);
    Stats(totalGcash, b.wallet.value, totalGcash + b.wallet.value, TuboOn(b.log, today))
  }

  /** Total capital leaves out inactive accounts; when every account is active it is the ledger total. */
  lemma TotalCapitalWhenAllActive(b: Ledger, today: Date)
    requires b.wallet.Some?
    requires forall k :: k in b.accounts ==> b.accounts[k].isActive
    ensures StatsOf(b, today).totalCapital == Total(b)
  {
    ActiveSumWhenAllActive(b.accounts);
  }

  /** The balance of an inactive account does not show in the dashboard totals. */
  lemma InactiveBalanceNotShown(b: Ledger, k: nat, balance: int, today: Date)
    requires b.wallet.Some? && k in b.accounts && !b.accounts[k].isActive
    ensures StatsOf(b.(accounts := b.accounts[k := Account(balance, false)]), today) == StatsOf(b, today)
  {
    ActiveSumIgnoresInactive(b.accounts, k, balance);
  }

  /** Capital moves and adjustments never add to tubo, whatever fee they carry; a cash-in or cash-out claimed today adds its fee. */
  lemma TuboCountsOnlyCashToday(log: seq<Record>, r: Record, today: Date)
    ensures r.txType == CapitalMove || r.txType == Adjustment ==> TuboOn(log + [r], today) == TuboOn(log, today)
    ensures IsTubo(r, today) ==> TuboOn(log + [r], today) == TuboOn(log, today) + r.fee
    ensures r.claimedAt.date != today ==> TuboOn(log + [r], today) == TuboOn(log, today)
  {
    SumWhereAppend(log, r, (x: Record) => IsTubo(x, today), (x: Record) => x.fee);
  }

  /** index(): firstOrCreate the wallet with balance 0, then compute the stats; nothing else changes. */
  method Index(db: Database, today: Date) returns (stats: Stats)
    modifies db
    ensures db.wallet == (if old(db.wallet).None? then Some(0) else old(db.wallet))
    ensures db.accounts == old(db.accounts) && db.transactions == old(db.transactions)
    ensures db.sessions == old(db.sessions)
    ensures Consistent(old(db.Snapshot())) ==> Consistent(db.Snapshot())
    ensures db.wallet.Some? && stats == StatsOf(db.Snapshot(), today)
  {
    if db.wallet.None? {
      db.wallet := Some(0);
    }
    var totalGcash := SumBalances(db.accounts, true);
    var cashOnHand := db.wallet.value;
    stats := Stats(totalGcash, cashOnHand, totalGcash + cashOnHand, TuboOn(db.transactions, today));
  }
}
