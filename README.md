# JCash ledger core in Dafny

JCash is a small cash and e-wallet ("GCash") ledger. An operator keeps one cash
wallet and several GCash accounts, each with a balance and an active flag. Every
movement of money is recorded in an append-only transactions table:

- a **cash-in**: the customer hands over cash, and the operator sends GCash from
  one of the accounts;
- a **cash-out**: the mirror image of a cash-in;
- a **capital move**: money moved between the wallet and the accounts;
- an **adjustment**: a manual correction.

Cash-ins and cash-outs carry a tiered fee, the operator's income ("tubo"). Each day
can have one session row that records the starting balances. A dashboard and a
daily report show totals computed over the tables.

This project models that core and proves its properties:

- `FeePolicy`: the fee rule `computeFee`, its tiers and their consequences. It also
  holds the code as written, which reads a column that does not exist (see
  Findings).
- `Store`: the tables. Money is integer centavos; every money column is
  `decimal(…, 2)`. The tables are:
  - the wallet, `None` while no row exists;
  - the accounts, as a map from id;
  - the transactions, as a sequence;
  - the sessions, as a map keyed by date.

  `Store` also defines the folds that sum balances and filtered sums over the log.
  The class `Store.Database` holds the four tables as fields, which the operations
  update in place.
- `TransactionService`: `cashIn`, `cashOut`, `moveCapital` and `adjust`. Each is
  given twice:
  - a step function from a `Ledger` value to a new ledger or a `Failure`; the
    properties are proved about it;
  - a method on `Database` that is proved to leave the tables exactly as the step
    says, or unchanged when the step fails. This models `DB::transaction`.

  The foreign keys of the transactions table are modelled. An id that names no
  account makes the insert fail and the step roll back.
- `PhpValues`: PHP 8's `is_numeric` on strings, and how the database matches a
  submitted key against an integer id.
- `TransactionController`: the validation rules of `store` and `storeAdjustment`,
  the `match` dispatch, and the `is_numeric` derivation of `from_account_id` and
  `to_account_id`.
- `DailySessions`: `continue` (first write wins), `start` (overwrite with zeros) and
  `reset` (overwrite with a given starting cash) on the date-keyed session table.
  The session table is a map keyed by date, which encodes the `unique` date column:
  each date has at most one session.
- `Dashboard`: `index`. It creates the wallet if needed, then computes the
  active-account total, cash on hand, total capital and today's tubo.
- `Reports`: `daily`, which sums per type over the records created on a date and
  returns that date's session.

The clock (`now()`, `today()`) is a parameter of every operation that reads it. So
are the four fee rates, which the source reads from the single `fee_settings` row
on every call.

## Model

| member | source | states |
|---|---|---|
| Store.Resolve | app/Services/TransactionService.php:111-112 | A submitted id names an account exactly when it is a digit string spelling an existing id, and the account found is the one with the id the digits spell (leading zeros allowed), whatever its active flag |
| Store.Shift | app/Services/TransactionService.php:46-47 | `increment`/`decrement` of one account changes that account's balance by the delta and leaves every other account and the set of ids unchanged |
| Store.SumAfterShift | app/Services/TransactionService.php:46-47 | Shifting one balance by a delta changes the sum of all balances by exactly that delta |
| Store.SumAfterUpdate | app/Http/Controllers/DashboardController.php:20 | Replacing one account changes a (possibly active-only) balance sum by exactly the change in what that account counts for |
| Store.SumRemove | app/Http/Controllers/DashboardController.php:20 | The balance sum does not depend on the order in which accounts are added: any account can be taken out first |
| Store.ActiveSumWhenAllActive | app/Http/Controllers/DashboardController.php:20 | When every account is active, the active-only sum equals the sum of all balances |
| Store.ActiveSumIgnoresInactive | app/Http/Controllers/DashboardController.php:20 | An inactive account's balance does not affect the active-only sum, whatever it is |
| Store.SumWhereAppend | app/Http/Controllers/ReportController.php:16-29 | Appending a record adds exactly that record's contribution to a filtered sum |
| Store.Database.constructor | database/migrations/2026_01_06_022536_create_transactions_table.php:14-23 | A new database holds the given wallet and accounts, no transactions and no sessions |
| PhpValues.DigitStringIsNumeric | app/Http/Controllers/TransactionController.php:64-65 | Every spelling of an account id passes `is_numeric`, so a numeric `from`/`to` reaches the service as an id |
| PhpValues.LeadingLetterNotNumeric | app/Http/Controllers/TransactionController.php:64-65 | A string that starts with a letter (not a digit, sign, point or whitespace) is not numeric |
| PhpValues.CashIsNotNumeric | app/Http/Controllers/TransactionController.php:64-65 | `is_numeric("cash")` is false |
| FeePolicy.FeeTiers | app/Services/TransactionService.php:14-33 | Below 500 pesos the fee is the below-500 rate; from 500 to below 1000 it is the 500–999 rate; from n thousand to below n+1 thousand (n ≥ 1) it is n times the per-thousand rate, discounted or not |
| FeePolicy.DiscountOnlyFromOneThousand | app/Services/TransactionService.php:19-29 | The discount flag never changes a fee below 1000 pesos; from 1000 pesos on it changes the fee if and only if the two per-thousand rates differ |
| FeePolicy.FeeNonNegative | app/Services/TransactionService.php:19-29 | With non-negative rates, no non-negative amount gets a negative fee |
| FeePolicy.FeeMonotoneFromOneThousand | app/Services/TransactionService.php:23-30 | Within the per-thousand tier a larger amount never gets a smaller fee |
| FeePolicy.FeeStepPerThousand | app/Services/TransactionService.php:24-29 | Each further 1000 pesos adds exactly one per-thousand rate to the fee |
| FeePolicy.FeeFlatWithinThousand | app/Services/TransactionService.php:24 | Because of `floor`, an amount pays the same as the whole thousand below it (1999 pesos pays as 1000) |
| FeePolicy.DefaultRateExamples | database/migrations/2026_01_05_130451_create_fee_settings_table.php:16-19 | At the column defaults (5, 10, 15, 10 pesos) the fees for 499, 999, 1000, 1999 and 2500 pesos (plain and discounted) are 5, 10, 15, 15, 30 and 20 pesos |
| FeePolicy.MiddleTierAsWrittenFails | app/Services/TransactionService.php:21-22 | For every amount from 500 to below 1000 pesos, the code as written reads a column the `fee_settings` row lacks and fails, while the intended fee is the row's 500–999 rate |
| FeePolicy.AsWrittenAgreesOutsideMiddleTier | app/Services/TransactionService.php:19-29 | Outside the middle tier the code as written yields exactly the corrected fee |
| TransactionService.CashInFailsOnlyWhenMissing | app/Services/TransactionService.php:37-40 | With the corrected fee, a cash-in or cash-out fails, changing nothing and appending nothing, if and only if the account id names no account or there is no wallet |
| TransactionService.CashAsWrittenFailsMiddleTier | app/Services/TransactionService.php:49-52 | As written, every cash-in and cash-out of 500 to 999 pesos fails and leaves the ledger unchanged; with the account and the wallet present it fails on the fee alone, where the corrected step succeeds |
| TransactionService.CashAsWrittenAgreesOutsideMiddleTier | app/Services/TransactionService.php:35-104 | Outside the 500–999 peso tier, cashIn and cashOut as written are exactly the corrected steps |
| TransactionService.LookupIgnoresActiveFlag | app/Services/TransactionService.php:39 | Deactivating an account does not change which account an id finds, so inactive accounts are accepted |
| TransactionService.CashInMovesMoney | app/Services/TransactionService.php:39-47 | A cash-in lowers the account's balance by the amount and raises the wallet by the same. Other accounts and the active flag are untouched, and wallet plus all balances is unchanged |
| TransactionService.CashOutMovesMoney | app/Services/TransactionService.php:75-83 | A cash-out raises the account's balance by the amount and lowers the wallet by the same. The account's active flag, the other accounts and the set of ids are untouched, and the total is unchanged |
| TransactionService.CashFeesSymmetric | app/Services/TransactionService.php:85-88 | A cash-in and a cash-out of the same amount and discount flag record the same fee, the one the fee rule computes (absent flag = not discounted) |
| TransactionService.MovedAccountsSum | app/Services/TransactionService.php:115-116 | Debiting the source account (if found) and crediting the destination (if found) changes the sum of balances by minus the amount for a found source and plus the amount for a found destination |
| TransactionService.MoveCapitalTotal | app/Services/TransactionService.php:111-130 | A capital move changes wallet plus balances by exactly what it credits (found destination account, wallet if `to` is "cash") minus what it debits. A side that is null or not numeric is silently skipped |
| TransactionService.MoveCapitalConserves | app/Services/TransactionService.php:111-119 | When each side names exactly one thing (an existing account or the wallet), a capital move conserves the total |
| TransactionService.MoveCapitalBalances | app/Services/TransactionService.php:111-119 | Every balance after a capital move: the wallet loses the amount when `from` is "cash" and gains it when `to` is "cash"; each account loses it when it is the resolved source and gains it when it is the resolved destination. Ids and active flags stay. With no wallet, a successful move names "cash" on neither side |
| TransactionService.MoveCapitalBetweenAccounts | app/Services/TransactionService.php:111-116 | Between two different accounts, a capital move debits one and credits the other by the amount. It keeps both active flags and the set of ids, and leaves the wallet and every other account alone |
| TransactionService.MoveCapitalRecord | app/Services/TransactionService.php:121-130 | A capital move's record carries fee 0 and not-discounted (the column defaults), and the ids that were found |
| TransactionService.AdjustMovesOneBalance | app/Services/TransactionService.php:138-165 | An adjustment on "cash" moves only the wallet, and one on "gcash" only the named account, by +amount for "add" and −amount otherwise. The touched account keeps its active flag, no account appears or disappears, the total moves by the same, the wallet is created at 0 if absent, and the record keeps the raw amount |
| TransactionService.ApplyAppendsOneRecord | app/Services/TransactionService.php:54-66 | Every successful operation keeps the old log as a prefix and appends exactly one record, of the operation's type, claimed, with claimed_at and created_at at the current time |
| TransactionService.CommittedKeepsConsistent | database/migrations/2026_01_06_022536_create_transactions_table.php:19-23 | Whether an operation commits or rolls back, a consistent ledger (well-formed log, every stored account id resolving) stays consistent |
| TransactionService.ApplyPreservesInvariants | database/migrations/2026_01_06_022536_create_transactions_table.php:19-23 | Every operation keeps each record's account ids resolvable (the foreign keys). It also keeps every record claimed with claimed_at = created_at, and fee 0 on capital moves and adjustments |
| TransactionService.CashInMethod | app/Services/TransactionService.php:35-68 | cashIn updates the tables exactly as the cash-in step says, or leaves them unchanged on failure. It returns the inserted record and the account's balance before the change. It keeps a consistent ledger consistent |
| TransactionService.CashOutMethod | app/Services/TransactionService.php:71-104 | cashOut updates the tables exactly as the cash-out step says, or not at all. It returns the record and the previous balance. It keeps a consistent ledger consistent |
| TransactionService.MoveCapitalMethod | app/Services/TransactionService.php:107-132 | moveCapital shifts the found accounts and then the wallet, and inserts the record. A null wallet or an unknown id undoes everything, so the tables end exactly as the capital-move step says. It keeps a consistent ledger consistent |
| TransactionService.AdjustMethod | app/Services/TransactionService.php:134-167 | adjust creates the wallet, moves the target balance and inserts the record. The wallet creation is undone too when the account lookup or the insert fails. It keeps a consistent ledger consistent |
| TransactionController.DispatchRoutesByType | app/Http/Controllers/TransactionController.php:58-70 | A request becomes a cash-in if and only if its type is "cash_in", a cash-out if and only if it is "cash_out", a capital move if and only if it is "capital_move", and never an adjustment. The operation carries the submitted account id, amount, discount flag and `from`/`to` |
| TransactionController.IllTypedFieldsRefused | app/Http/Controllers/TransactionController.php:50-51 | A fee that is not numeric or a discount flag that is not a boolean makes store refuse the request and write nothing |
| TransactionController.StoreNeverRecordsAdjustment | app/Http/Controllers/TransactionController.php:44-45 | No request to store ever records an adjustment |
| TransactionController.CashNeverBecomesAccountId | app/Http/Controllers/TransactionController.php:61-65 | The `from`/`to` token "cash" never becomes an account id |
| TransactionController.ClientFeeIgnored | app/Http/Controllers/TransactionController.php:50 | The client's fee is validated (a negative or non-numeric one is refused) but otherwise has no effect: any two valid fees give the same outcome |
| TransactionController.MovesBalanceMatchesService | app/Http/Controllers/TransactionController.php:61-65 | Through store, a capital-move side names exactly one thing (wallet or account) when it is "cash" or numeric, and nothing otherwise |
| TransactionController.StoreCapitalMoveTotal | app/Http/Controllers/TransactionController.php:61-69 | A capital move accepted by store changes the total by +amount for a destination that is "cash" or numeric and −amount for such a source |
| TransactionController.StoreConserves | app/Http/Controllers/TransactionController.php:58-70 | Every cash-in and cash-out accepted by store conserves the total, and so does every capital move whose two sides both move or both do not |
| TransactionController.StoreAdjustmentMovesOneBalance | app/Http/Controllers/TransactionController.php:90-100 | A validated adjustment moves exactly one balance ("cash": the wallet, "gcash": the named account) by +amount for "add" and −amount for "deduct", keeps the account's active flag and the set of ids, and records the raw amount |
| TransactionController.StoreAdjustmentNeedsAccount | app/Http/Controllers/TransactionController.php:97 | A validated adjustment on "gcash" fails if and only if its account id names no account (the rule requires an id but not that it exists) |
| TransactionController.ControllersKeepAmountsPositive | app/Http/Controllers/TransactionController.php:95 | Both entry points accept only amounts of at least one peso, so every stored amount stays positive |
| TransactionController.StoreMethod | app/Http/Controllers/TransactionController.php:42-73 | store refuses an invalid request (unknown type, unknown account id, amount under one peso or not numeric, fee negative or not numeric, discount flag not a boolean) without changing anything; otherwise the tables end exactly as the dispatched service step says. It keeps a consistent ledger consistent |
| TransactionController.StoreAdjustmentMethod | app/Http/Controllers/TransactionController.php:90-103 | storeAdjustment refuses an invalid request without changing anything; otherwise the tables end exactly as the adjust step says. It keeps a consistent ledger consistent |
| DailySessions.ContinueFirstWriteWins | app/Http/Controllers/DailySessionController.php:14-21 | After continue, today has a row. Calling continue again, whatever the balances are then, changes nothing, and an existing row is never overwritten |
| DailySessions.ContinueSnapshotsTotal | app/Http/Controllers/DailySessionController.php:17-18 | A row created by continue has the wallet as starting cash, and starting cash plus starting GCash equals the ledger total, inactive accounts included |
| DailySessions.ContinueNeedsWallet | app/Http/Controllers/DailySessionController.php:17 | continue fails if and only if there is no wallet, even when today's row already exists |
| DailySessions.StartAlwaysZero | app/Http/Controllers/DailySessionController.php:29-36 | start leaves today's row at zero starting cash and zero starting GCash whatever was there, and doing it twice is the same as once |
| DailySessions.ResetOverwrites | app/Http/Controllers/DailySessionController.php:44-56 | reset succeeds if and only if a starting cash ≥ 0 is given. It then stores that value, the sum of all balances and the notes as today's row |
| DailySessions.SessionOpsTouchOnlyToday | app/Http/Controllers/DailySessionController.php:14-56 | All three operations leave a row for today and leave every other date's row (or its absence) as it was |
| DailySessions.Continue | app/Http/Controllers/DailySessionController.php:12-24 | continue leaves the balances and log unchanged and the session table as the continue step says, and returns today's row |
| DailySessions.Start | app/Http/Controllers/DailySessionController.php:26-39 | start leaves the balances and log unchanged and overwrites today's row with zeros |
| DailySessions.Reset | app/Http/Controllers/DailySessionController.php:42-59 | reset succeeds exactly when the reset step does. It leaves the balances and log unchanged, and the session table as the reset step says (unchanged when validation fails); on success it returns today's stored row |
| Dashboard.TotalCapitalWhenAllActive | app/Http/Controllers/DashboardController.php:20-22 | Total capital is active GCash plus cash on hand. When every account is active it equals the ledger total |
| Dashboard.InactiveBalanceNotShown | app/Http/Controllers/DashboardController.php:20 | Changing the balance of an inactive account changes none of the dashboard's figures |
| Dashboard.TuboCountsOnlyCashToday | app/Http/Controllers/DashboardController.php:25-27 | Capital moves, adjustments and records claimed on another day add nothing to today's tubo; a cash-in or cash-out claimed today adds its fee |
| Dashboard.Index | app/Http/Controllers/DashboardController.php:12-38 | index creates the wallet with balance 0 only if absent, changes nothing else, and returns the figures for the resulting state. It keeps a consistent ledger consistent |
| Reports.SummaryAppend | app/Http/Controllers/ReportController.php:16-29 | The report is additive: a new record adds exactly its own per-bucket contribution (by created_at date, type and sign) |
| Reports.CashInReported | app/Http/Controllers/ReportController.php:19 | A cash-in created on the report date adds its amount to the cash-in total and its fee to the fee total, and nothing else |
| Reports.OtherDatesNotReported | app/Http/Controllers/ReportController.php:16 | A record created on another date, whatever its claimed_at, does not change the report |
| Reports.DeductBucketEmpty | app/Http/Controllers/ReportController.php:25-28 | When every stored amount is positive, the adjustment-deduct total is zero |
| Reports.DeductionsNeverReported | app/Http/Controllers/ReportController.php:25-28 | After any request accepted by store or storeAdjustment the adjustment-deduct total stays zero, because amounts are at least one peso and adjust stores the raw amount |
| Reports.AdjustmentReportedAsAddition | app/Http/Controllers/ReportController.php:21-24 | An accepted adjustment adds its full amount to the adjustment-add total of its date, whether its direction was "add" or "deduct", and changes no other total |
| Reports.ReportFeesMatchTubo | app/Http/Controllers/ReportController.php:29 | On a log the service wrote, the report's fee total for a date equals the dashboard's tubo for that date |
| Reports.DailyDefaultsToToday | app/Http/Controllers/ReportController.php:14 | Without a date the report is for today, and it carries that date's session row if there is one |

## Left out

- HTTP routing, Inertia rendering, redirects and flash messages are left out. So are the other controllers (`index`, `history`, `create`, `adjustment`, history filters, CSV export, settings, PIN and roles), because they hold no ledger logic.
- Amounts are whole centavos. Sub-centavo inputs, PHP float rounding and the width limits of `decimal(12,2)` and `decimal(8,2)` are not modelled.
- Concurrency, isolation and row locking of `DB::transaction` are not modelled. Each operation is one atomic all-or-nothing step.
- One `now` stands for every clock read within a request: `now()`, `Carbon::now()`, the created_at timestamp and `today()`.
- An id is matched against the database only when it is a plain digit string. Other numeric spellings (`"+3"`, `"3.0"`, `" 3"`) are treated as naming no account, although a database might coerce them to an integer.
- Request values other than `fee` and `discounted` are taken to be strings or null. A non-string value such as an array is not modelled, whether a `string` rule would refuse it (`reference`, `receiver_name`, `remarks`) or no rule checks its type (`from`, `to`, the account ids).
- Request keys that are absent rather than null are not distinguished. Laravel's input middleware is assumed to have trimmed strings and turned empty strings into null.
- The `fee_settings` row is assumed to exist. `FeeSetting::firstOrCreate` at app/Providers/AppServiceProvider.php:26 creates it at boot, and its four rates are a parameter.
- TransactionService.CashInFailsOnlyWhenMissing: like every step the rest of the model uses, CashInStep and CashOutStep charge the corrected fee. As written, cash-ins and cash-outs of 500 to 999 pesos also fail (see Findings and `TransactionService.CashAsWrittenFailsMiddleTier`).
- The missing `DB` import in app/Http/Controllers/ReportController.php:28 makes the report fail to load as written. The model sums the intended `ABS(amount)`.
- previous_balance is not a column of the model's records. The service computes it, but app/Models/Transaction.php:9-22 does not list it as fillable, so it is never stored. `CashInMethod` and `CashOutMethod` return it as an out-parameter instead.
- Reading `->balance` on a missing wallet in `continue` is modelled as a failure. PHP raises a warning there, which Laravel turns into an exception.
- The model follows the code where a reader might expect an account picker or a report that sees only active accounts:
  - `reset` stores the sum of all balances as starting GCash, inactive accounts included;
  - `findOrFail` accepts inactive accounts. The account pickers in the UI offer only active ones, but the model does not restrict the ids a request may carry.
- The settings update, which validates the columns `five_to_999_fee` and `discount_per_1000_fee` that `FeeSetting` does not fill, is not modelled: the rates are a parameter.

## Findings

| source | as written | input that shows it | evidently intended | confidence | as-written member | corrected member |
|---|---|---|---|---|---|---|
| app/Services/TransactionService.php:22 | the middle tier reads the attribute `five_to_999_fee`, but the `fee_settings` table has `five_hundred_to_999_fee` (database/migrations/2026_01_05_130451_create_fee_settings_table.php:17). The attribute is null, and returning null from `computeFee(): float` throws, which rolls the cash-in or cash-out back | a cash-in or cash-out of 700 pesos | charge the 500–999 rate (10 pesos by default) | not executed; high | TransactionService.CashAsWrittenFailsMiddleTier | FeePolicy.FeeTiers |
