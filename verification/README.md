# Verified model of the double-entry ledger

A tenant's books are modelled as the tables the application keeps: the chart of
accounts, journals with their lines, receivable and payable rows with their
payment ledgers, expenses and taxes. The operations are the database functions
that post, and the routes and scripts around them; the reports are folds over
the same lines. The model is used to prove, for every run, every interleaving
and every crash, how these figures must agree and by exactly how much the code
as written lets them differ.

`dafny verify dfyconfig.toml` checks the whole project.

## How it is laid out

- `Sums`, `Results`: sums over tables; optional values and refusals.
- `Ledger`, `Posting`, `SubLedger`, `Sales`, `SalePosting`, `Taxes`: the tables
  as a value `State`, and each request as a function from `State` to a new
  `State` or a refusal. A request is one transaction, so a refusal carries no
  state.
- `Database`: the same tables updated in place, as a class. Its methods follow
  the loops and inserts of the originals and are proved to leave what the
  functions say; a refused request rolls back.
- `Effects`, `SaleEffects`: what each request books, account by account, the row it
  opens, and when it is refused; `Seed`: the chart a new business starts with.
- `Fallback`: when a sale falls back to cash, and when it is refused.
- `Runs`, `Reach`, `History`, `Stamps`, `TaxRuns`, `TaxDebits`, `Audit`, `CashRuns`:
  properties of every run; `Mixed`: of runs that also hold journals posted by hand.
- `Payments`: concurrent payments, step by step, under row locks.
- `Stores`: which store a receivable payment is credited to.
- `Reports`, `Statements`, `CashFlow`: balance sheet, profit and loss, trial
  balance, dashboard and cash flow.
- `Heal`, `Backfill`, `Opening`: the three repair programs; `Reversals`,
  `BackfillRows`, `OpeningReport`: what they write, row by row and line by line, and
  what the reports show afterwards.
- `Aggregates`: the materialised sales views.

Stored amounts are whole kobo (`int`). Amounts that have not been stored yet
(NUMERIC arguments, Python floats) are `real`, in kobo; storing rounds half away
from zero, as PostgreSQL does for Numeric(15,2). The planning of a sale is
proved for every rounding to the nearest kobo. Times are numbers, random UUIDs
are draws from a counter. The clock is a parameter.

Two assumptions hold throughout the properties of the books: the chart has one
account per code and per id, and 1100 is an asset while 2000 is a liability.
The first is documented (app/accounting/models.py:56); no constraint in the schema
enforces it (alembic/versions/b88ef4f330c2_initial_tables.py:143-153). The chart a
new business is given meets both.

## Where the code differs from its own account

- The remark that running the opening-journal backfill twice is a no-op
  (alembic/versions/b9c8d7e6f5a4_book_ar_ap_to_gl.py:29) holds exactly when the
  first run opened nothing; otherwise the second run books everything again.
- The fall-back to cash for a missing 1010 or 1100 (app/common/bridge.py:1170-1181)
  looks up cash among the codes the sale itself uses. A sale whose money account
  is missing goes to cash exactly when a positive tax of it is booked to 1000;
  any other is refused.
- Payment journals carry no store, because neither payment function returns one
  (alembic/versions/e5f6a7b8c9d0_add_payment_ledgers.py:88-93) while the route
  reads it (app/accounting/routes.py:987).
- The backfill of pending sales adds a second row to a sale that has a row but
  no journal: the booking commit opens a row without looking for one
  (app/common/bridge.py:1204-1229).
- A row's history breaks in two ways, both outside whole kobo. A payment that
  ends in exactly half a kobo rounds up both the paid amount and the balance, so
  the row ends one kobo above its amount. A payment that leaves less than half a
  kobo, but not nothing, is stored as the whole balance while the status, decided
  before rounding, says partial; such a row takes no further payment.
- The balance sheet passes over accounts of any type but its five, while an
  account's type is any string (app/accounting/schemas.py:182): lines booked to
  such an account unbalance it, though not the trial balance.
- The cash flow statement goes by the header's stamp and the cash balance by the
  line's. A sale stamps its lines before its header (app/common/bridge.py:1197-1202),
  so a sale caught across an end of the period is in one and not in the other.
- A sale stamps its lines one by one (app/common/bridge.py:1195-1198), and the
  balance sheet and the trial balance filter by the line's stamp. A cut-off that
  falls between two lines of a sale counts part of it: both are out by that part,
  and by nothing else.
- The balance sheet compares row balances of today with a control account at the
  cut-off, so at an earlier cut-off its two differences show the later lines.
- A remittance is checked against its store's balance without a lock, and
  reports a tenant-wide remainder. The check lets 0.9 kobo through
  (app/accounting/routes.py:781-788): a remittance half a kobo or more above what
  is owed is stored a kobo too high and overdraws the account by it.
- The payables half of the opening backfill asks for 2000 alone, and its debit line
  joins the category's account (alembic/versions/b9c8d7e6f5a4_book_ar_ap_to_gl.py:377-395):
  a payable whose category's account is missing gets a one-sided journal.
- The first key of the category map runs together with the docstring above it
  (app/accounting/seed.py:204-213), so the map has no key rent. The database
  functions do book rent to 5100, as the docstring says; `Seed` reads the map so.
- What a tax account still owes is collected less remitted exactly when no request
  but a remittance debits the account, as receivables, payables, expenses, payments
  and sales do theirs.

## Model

| member | source | states |
|---|---|---|
| Payments.PaymentsSerialise | alembic/versions/e5f6a7b8c9d0_add_payment_ledgers.py:103-141 | Any number of concurrent receivable and payable payments, stepped as lock, re-read, check, update, ledger row, journal, commit, with crashes anywhere: the committed tables equal the finished requests run one at a time in lock order, every request got the answer it gets there, none is missing from the order, and no balance is negative |
| Payments.NoDeadlock | alembic/versions/e5f6a7b8c9d0_add_payment_ledgers.py:103-108 | While any request is unfinished, some request can take a step: one row lock each cannot deadlock |
| Payments.StepIsHonest | alembic/versions/e5f6a7b8c9d0_add_payment_ledgers.py:103-147 | A transaction holding its row's lock either keeps knowledge that is still true of the committed tables, or ends with the answer it would get alone |
| Payments.FinishInPlace | alembic/versions/e5f6a7b8c9d0_add_payment_ledgers.py:103-108 | Finishing a request at its place in the lock order equals running it last, when nobody after it wants its row |
| Payments.Commute | alembic/versions/e5f6a7b8c9d0_add_payment_ledgers.py:126-141 | Payments on different documents commute on every table |
| Payments.ActKeeps | alembic/versions/e5f6a7b8c9d0_add_payment_ledgers.py:103-147 | Every step or crash of any transaction keeps the state equal to the serial run it stands for |
| Payments.ReceivableRequestAlone | app/accounting/routes.py:961-999 | The whole request on the books (SQL function, then journal) and the stepwise transaction alone refuse alike and leave the same tables |
| Payments.PayableRequestAlone | app/accounting/routes.py:1160-1194 | The same for a payment on a payable |
| Reach.ControlAccountsMatch | app/accounting/repository.py:809-838 | From an empty ledger, over every run of the ten posting and moving requests and account deletion, with payments in whole kobo and taxes not booked to 1100 or 2000: receivable balances sum to what all lines leave on 1100 and payable balances to what they leave on 2000 |
| Audit.ReportedDifferences | app/accounting/repository.py:809-838 | So at any cut-off the balance sheet's receivable and payable differences are one kobo for each accepted payment that ended in half a kobo, and what the lines the cut-off does not count yet leave on 1100 (2000), because row balances have no cut-off; from the last stamp on, zero for payments in whole kobo |
| Audit.ReportShowsTheGaps | app/accounting/repository.py:845-902 | For any books and cut-off, the report's tenant-wide differences are row balances less all lines of 1100 and 2000, moved by exactly the lines of that account it does not count yet |
| Reach.GapOverRuns | app/accounting/repository.py:809-838 | For payments of any amount: row balances less all lines of 1100 and of 2000 grow apart by exactly one kobo for every accepted payment that ends in exactly half a kobo, and by nothing else |
| Reach.RunKeepsInv | app/accounting/repository.py:171-196 | Every reachable state has lines that name an account of the chart by id and code, unique rows and journals, and no negative paid amount or balance |
| Reach.DropKeepsInv | app/accounting/repository.py:171-196 | Deleting an account never orphans a line: whatever account a line names is still in the chart |
| Runs.StepGap | app/accounting/routes.py:929-999 | One request of any kind moves a difference only by a payment ending in half a kobo |
| Runs.OpenReceivableGap | alembic/versions/b9c8d7e6f5a4_book_ar_ap_to_gl.py:76-116 | Creating a receivable moves its row and 1100 by the same amount and leaves 2000 alone |
| Runs.OpenPayableGap | alembic/versions/c7d8e9f0a1b2_add_vendor_id_to_payables.py:97-137 | Creating a payable moves its row and 2000 by the same amount and leaves 1100 alone, whatever the category's account |
| Runs.ReceivePaymentGap | alembic/versions/e5f6a7b8c9d0_add_payment_ledgers.py:121-141 | A receivable payment takes the same off the row and off 1100, except one kobo more stays on the row when the amount ends in half a kobo |
| Runs.MakePaymentGap | alembic/versions/e5f6a7b8c9d0_add_payment_ledgers.py:187-207 | The same for a payable payment and 2000 |
| Runs.SpendGap | alembic/versions/y4z5a6b7c8d9_add_store_id_to_accounting.py:322-363 | An expense moves neither difference |
| Runs.SellGap | app/common/bridge.py:1143-1229 | A sale moves neither difference: unpaid, its new row owes exactly what it debits to 1100 |
| Runs.RemitGap | app/accounting/routes.py:791-833 | A tax remittance moves neither difference when no listed tax is booked to a control account |
| Runs.MoveArGap | app/accounting/routes.py:1062-1072 | Moving a receivable to another store moves neither difference |
| Runs.DropNet | app/accounting/repository.py:186-196 | Deleting an unused account changes no balance by code |
| Seed.SeededChartIsOk | app/accounting/seed.py:36-195 | The chart a new business is given has one account per code, with 1100 an asset and 2000 a liability |
| Seed.SeedRefusesNoDocument | app/accounting/seed.py:36-195 | On the chart a new business is given, a receivable, a payable and an expense of any category are refused only for their amount or a missing store |
| Seed.SeedRefusesNoSale | app/accounting/seed.py:36-195 | And a sale whose taxes are booked to accounts of that chart, or to none, always posts, each line on the account it was planned for |
| Seed.CategoriesAgree | app/accounting/seed.py:203-229 | The database functions book each category of the category map to the account the map gives it |
| History.HistoryThroughoutIff | alembic/versions/e5f6a7b8c9d0_add_payment_ledgers.py:110-141 | Over every run and every amount, each receivable and payable row's history adds up throughout (paid plus balance is the amount, paid is the sum of its ledger rows, balance not negative, pending exactly when nothing is paid, paid exactly when something was paid and nothing is left) if and only if no accepted payment ends in half a kobo or leaves less than half a kobo but not nothing |
| History.HistoryOverRuns | alembic/versions/e5f6a7b8c9d0_add_payment_ledgers.py:110-141 | Under that condition every state the run reaches has such a history |
| History.WholeRunIsClean | alembic/versions/e5f6a7b8c9d0_add_payment_ledgers.py:110-141 | Payments in whole kobo meet it |
| History.PaymentKeepsHistoryIff | alembic/versions/e5f6a7b8c9d0_add_payment_ledgers.py:118-131 | One accepted payment keeps its row's history exactly under that condition |
| History.PaidRowOk | alembic/versions/e5f6a7b8c9d0_add_payment_ledgers.py:118-131 | One payment leaves every other row's history alone, so the table's history hangs on its own row |
| History.PaymentRefusedIff | alembic/versions/e5f6a7b8c9d0_add_payment_ledgers.py:110-116 | A receivable payment is refused exactly when the row is missing, the stored amount is not positive, it exceeds the balance, or account 1000 or 1100 is missing, and the reason given holds |
| History.PayablePaymentRefusedIff | alembic/versions/e5f6a7b8c9d0_add_payment_ledgers.py:176-184 | The same for a payable payment and account 2000 |
| History.HalfKoboBreaksTheRow | alembic/versions/e5f6a7b8c9d0_add_payment_ledgers.py:118-131 | A payment of 50.5 kobo on 100 leaves the row one kobo above its amount |
| History.RemainderBreaksTheRow | alembic/versions/e5f6a7b8c9d0_add_payment_ledgers.py:121-123 | A payment of 99.7 kobo on 100 is stored as the whole amount but leaves the status partial, and no further payment is accepted |
| SubLedger.PayRowExact | alembic/versions/e5f6a7b8c9d0_add_payment_ledgers.py:118-131 | Exact stored effect of an accepted payment on a row after rounding to Numeric(15,2), and when its status becomes paid |
| Posting.AcceptedImbalance | alembic/versions/y4z5a6b7c8d9_add_store_id_to_accounting.py:270-302 | A journal of k lines accepted by the tolerance is stored within 0.01 + 0.01k of balance, 0.01 + 0.005k when every line has one side |
| Effects.PostingRefusedIff | alembic/versions/y4z5a6b7c8d9_add_store_id_to_accounting.py:270-302 | A posting is refused exactly when its totals differ by more than 0.01 naira or one of its entries names no account |
| Posting.StoredDrift | alembic/versions/b88ef4f330c2_initial_tables.py:319-320 | Stored and requested imbalance of any list of lines differ by at most one kobo per line, half a kobo when one-sided |
| Posting.RoundsHalfAway | alembic/versions/b88ef4f330c2_initial_tables.py:319-320 | Storing rounds to the nearest kobo, half a kobo away from zero |
| Posting.PostPair | alembic/versions/y4z5a6b7c8d9_add_store_id_to_accounting.py:264-302 | A debit and a credit of one amount always post, as two lines rounded alike under one stamp |
| Mixed.CheckOverMixedRuns | alembic/versions/y4z5a6b7c8d9_add_store_id_to_accounting.py:270-302 | Over any mixture of requests and hand-posted journals, for sales of any non-negative amount, at every cut-off and for every store: the balance sheet's check, with what lies on accounts it passes over and without what split sales show of themselves, stays within the allowances of the accepted hand-posted journals (0.01 each and 0.01 a line, 0.005 for one-sided lines) and of the accepted sales that are not in whole kobo (0.005 a tax line and 0.015). With every line on an account of the five types the check itself does, without the split sales |
| Mixed.SaleWithinAllowance | app/common/bridge.py:1187-1202 | A sale of any amount with non-negative taxes is stored within 0.005(n + 3) of balance for n tax lines, exactly balanced in whole kobo |
| Sales.GroupTaxes | app/accounting/service.py:840-850 | The dict-building loop computes the grouping function |
| Sales.PlanSaleJournal | app/accounting/service.py:792-919 | The entry list built step by step is the plan the properties below speak about |
| Sales.OneCreditPerAccount | app/accounting/service.py:841-852 | The grouping loop leaves exactly one bucket for each account some tax line names: none twice, none missing, none invented |
| Sales.GroupDrift | app/accounting/service.py:842-847 | Bucket amounts add up to the tax lines within half a kobo per line, exactly for whole kobo |
| Sales.SaleJournalBalances | app/accounting/service.py:792-919 | Planned debits equal planned credits exactly for whole-kobo taxes, and within 0.005(n + 1) for n lines of any amount under any nearest-kobo rounding |
| SalePosting.WholeSaleBalances | app/common/bridge.py:1187-1202 | A whole-kobo sale is stored with debits equal to credits, cost entries rounded alike |
| Fallback.PostsIff | app/common/bridge.py:1160-1185 | A sale posts exactly when every account it needs is in the chart, or is 1010 or 1100 while the sale needs cash too and cash is there |
| Fallback.FallbackFiresIff | app/common/bridge.py:1170-1181 | In a sale that posts some line carries another code than planned exactly when a needed 1010 or 1100 is missing |
| Fallback.LinesFallBack | app/common/bridge.py:1168-1182 | Each line of a posted sale keeps its code, or moves to cash exactly when its account falls back |
| Fallback.PromiseKeptIff | app/common/bridge.py:1170-1181 | With everything but its bank or receivable account in the chart, a sale goes to cash exactly when it carries a positive tax with a line booked to 1000; otherwise it is refused |
| Fallback.TransferIsRefused | app/common/bridge.py:1182-1192 | A transfer on a chart with cash and revenue only is refused |
| Fallback.TaxedTransferFallsBack | app/common/bridge.py:1170-1181 | The same transfer with a tax booked to 1000 posts, and its money goes to cash |
| SalePosting.NoFallback | app/common/bridge.py:1160-1185 | Unless a tax is booked to 1000, 1010 or 1100, a sale posts exactly when every planned code is in the chart and every line keeps its code |
| SalePosting.SaleControl | app/accounting/service.py:800-832 | On 1100 a sale books its rounded total when unpaid and nothing when settled; on 2000 nothing |
| SalePosting.SaleOpensRow | app/common/bridge.py:1204-1229 | A receivable row is opened for an unpaid sale exactly when 1100 is in the chart |
| Effects.ReceivableBooks | alembic/versions/b9c8d7e6f5a4_book_ar_ap_to_gl.py:98-116 | Debits 1100 and credits 4000 by the stored amount and touches no other account; the journal names the new row and its store, stamped once; the row owes the whole amount with nothing paid, pending, in that store |
| Effects.PayableBooks | alembic/versions/c7d8e9f0a1b2_add_vendor_id_to_payables.py:119-137 | Debits the category's account, credits 2000, and touches no other account; the row owes the whole amount with nothing paid, pending, in its store and category |
| Effects.ReceivablePaymentBooks | app/accounting/routes.py:979-988 | Debits cash, credits 1100, touches no other account, and is tagged with no store |
| Effects.PayablePaymentBooks | app/accounting/routes.py:1176-1185 | Debits 2000, credits cash, touches no other account, and is tagged with no store |
| Effects.ExpenseBooks | alembic/versions/y4z5a6b7c8d9_add_store_id_to_accounting.py:348-356 | Debits the category's account, credits cash; the expense row names the journal it posted and carries its store |
| Effects.RemittanceBooks | app/accounting/routes.py:793-833 | Debits the tax account, credits bank when asked and present and cash otherwise, tagged with its store |
| Effects.SaleBooks | app/accounting/service.py:792-919 | On every account of the chart a posted sale books exactly its share: total on cash, bank or receivables, revenue net of tax, each tax account its own taxes, cost of goods against inventory, and on cash also the entries that fall back to it |
| SaleEffects.CostBooks | app/accounting/service.py:884-919 | A posted sale moves unit cost times quantity over all its items from 1200 to 5000, rounded once, and nothing when that comes to nothing |
| SaleEffects.OneItemBooks | app/accounting/service.py:884-919 | One item of unit cost c, q of it: 5000 is debited and 1200 credited by c times q |
| SaleEffects.SplittingAnItem | app/accounting/service.py:884-888 | Ringing up q1 + q2 of an item at once or as two items books the same on every account |
| SaleEffects.FreeGoodsBookNothing | app/accounting/service.py:884-890 | Items that cost nothing book nothing on 5000 and 1200 |
| SaleEffects.MoneyBooks | app/accounting/service.py:798-808 | With no tax on them, of 1000, 1010 and 1100 a posted sale debits exactly one by its total: 1100 while unpaid, 1010 for card and transfer, 1000 otherwise |
| SaleEffects.SaleRowAdded | app/common/bridge.py:1204-1229 | An unpaid sale adds one row on which its whole total is owed in its store, a settled one none |
| Effects.EachAccountItsOwnTaxes | app/accounting/service.py:840-850 | Each bucket is its own account's tax lines, exactly in whole kobo, within half a kobo per line of that account otherwise |
| Effects.ReceivableRefusedIff | alembic/versions/b9c8d7e6f5a4_book_ar_ap_to_gl.py:78-82 | Refused exactly for a non-positive amount, no store, or a missing account |
| Effects.PayableRefusedIff | alembic/versions/c7d8e9f0a1b2_add_vendor_id_to_payables.py:99-104 | The same for a payable |
| Effects.ExpenseRefusedIff | alembic/versions/y4z5a6b7c8d9_add_store_id_to_accounting.py:336-346 | The same for an expense |
| Effects.RemittanceRefusedIff | app/accounting/routes.py:757-804 | Refused exactly for a bad amount or method, no store, an account no active tax uses, more than is owed with its slack, or nothing to pay from |
| Effects.DeletionRefusedIff | app/accounting/repository.py:171-196 | An account is deleted, and it alone, exactly when it is in the chart and no line of any journal is booked to it |
| Effects.ReceivableMove | app/accounting/routes.py:1051-1072 | Fails only when the row is missing; the row and its own creation and payment journals change store, and nothing else in any table changes |
| Effects.PayableMove | app/accounting/routes.py:1242-1263 | The same for a payable |
| Effects.ExpenseMove | app/accounting/routes.py:1337-1357 | The expense and exactly the journal it names change store |
| Taxes.TaxCodes | app/accounting/repository.py:1073-1133 | Accounts of active taxes, each listed once however many taxes share it |
| Taxes.GetTaxesOwed | app/accounting/repository.py:1073-1133 | One line per account of the chart that an active tax names (2400 when it names none), each with its posted credits as collected, the posted debits of remittances as remitted, and the credits less all posted debits as owed |
| Taxes.RemittanceEffect | app/accounting/routes.py:793-833 | A remittance lowers what its own store (and the tenant) still owes by the stored amount, changes no collected figure and no other account or store |
| Taxes.RemittanceShows | app/accounting/routes.py:793-833 | After an accepted remittance the line of its account shows, in its store and tenant-wide, the stored amount more remitted and less owed and the same collected; every other line is as it was |
| Taxes.ConcurrentRemittances | app/accounting/routes.py:773-788 | Any number of remittances that pass the unlocked check against the same books all post, and overdraw the account exactly when their sum exceeds what was owed |
| Taxes.TwoRemittancesOverdraw | app/accounting/routes.py:773-788 | Two remittances of 100 against 100 owed leave minus 100 |
| Taxes.RemainderCountsOtherStores | app/accounting/routes.py:868-886 | After a store has remitted all it owes, the answer names what another store owes |
| Taxes.ReportedRemainder | app/accounting/routes.py:868-886 | The still_owed a remittance returns is tenant-wide: the store's own figure plus what all other stores owe |
| TaxRuns.TaxConserved | app/accounting/repository.py:1073-1133 | Over every serial run, per store and per tax account that only taxes use: still owed is collected less remitted; it is non-negative throughout the run if and only if no accepted remittance exceeds what the store owes by half a kobo or more, which none does in whole kobo; and it never falls below minus one kobo |
| TaxDebits.CollectedLessRemittedIff | app/accounting/repository.py:1090-1124 | Over every run from an empty ledger and for any account of the chart, tenant-wide: still owed is collected less remitted if and only if no accepted request but a remittance debits the account by a nonzero stored amount (1100 for a receivable, the category's account for a payable or an expense, cash and 2000 for payments received and made, the money account and 5000 for a sale); in general it is less by exactly those debits |
| TaxDebits.CollectedLessRemittedInStores | app/accounting/repository.py:1090-1124 | Under that condition the same holds in every store, whatever was moved between stores |
| TaxDebits.LinesBalance | app/accounting/repository.py:1121-1129 | A line of the tenant-wide answer owes what it collected less what it remitted exactly under that condition |
| TaxDebits.LinesBalanceInStores | app/accounting/repository.py:1121-1129 | Under it so does every line of a store's answer |
| TaxDebits.OwedIsTheBalance | app/accounting/repository.py:1090-1124 | For any books and store, what a line owes is the balance the balance sheet shows for its account once every posted line is counted |
| TaxDebits.StepDebits | app/accounting/routes.py:929-999 | Each request adds to those debits exactly what it debits to the account; moves, deletions and remittances add nothing |
| TaxDebits.SaleDebited | app/common/bridge.py:1168-1202 | A posted sale debits its stored total to the account its money goes to, after any fall-back to cash, its stored cost to 5000, and nothing to any other account |
| TaxRuns.SharedAccountOwesLess | app/accounting/repository.py:1090-1124 | A tax booked to 5900 owes minus 100 after one expense of 100, with nothing collected or remitted |
| TaxRuns.OverdrawsIff | app/accounting/routes.py:781-788 | One request overdraws what a store owes exactly when it is an accepted remittance of that account and store, half a kobo or more above what is owed (the check lets up to 0.9 kobo through) |
| TaxRuns.SlackOverdraws | app/accounting/routes.py:773-788 | A remittance of 100.8 kobo against 100 owed is accepted and leaves minus one |
| TaxRuns.StepTax | app/accounting/routes.py:743-833 | No request other than an accepted remittance of that account and store lowers what is owed |
| Reports.GetBalanceSheet | app/accounting/repository.py:775-842 | The loop over the chart computes each total, earnings, the check and both sub-ledger differences; the check is the debits less credits of the counted lines without those on accounts the report passes over |
| Reports.BalanceSheetIdentity | app/accounting/repository.py:775-832 | The check equals debits less credits of the counted lines, without those on accounts of no chart or of none of the five types, for every ledger, cut-off and store |
| Reports.StrayIsOtherNet | app/accounting/repository.py:785-785 | When every line is in the chart, those are the lines on its accounts of other types |
| Reports.ByAccountIsByJournal | app/accounting/repository.py:905-959 | Adding up by account and adding up by journal give one total, for every filter of accounts, lines and stores |
| Reports.BalancedBooksCheck | app/accounting/repository.py:826-832 | With exactly balanced journals, at every cut-off, the check is what the journals split by the cut-off show of themselves, less what lies on accounts of other types |
| Reports.CheckWithinTolerance | alembic/versions/y4z5a6b7c8d9_add_store_id_to_accounting.py:270-302 | Journals each within its allowance keep the check, at every cut-off, within the sum of the allowances, besides what lies on accounts the report passes over and what split journals show of themselves |
| Audit.JournalsSoundOverRuns | alembic/versions/y4z5a6b7c8d9_add_store_id_to_accounting.py:284-301 | Every journal of every reachable state balances exactly and has no negative line, for whole-kobo sales |
| Audit.ReachableBooksBalance | app/accounting/repository.py:826-832 | In every reachable state, at every cut-off and for every store: the trial balance is out by exactly the counted part of the sales the cut-off splits, and the check by that less what lies on accounts of other types |
| Audit.BooksBalanceIff | app/accounting/repository.py:935-941 | When sales stamp their lines in the order they write them: the trial balance is never out on the credit side, and it balances if and only if no sale of the store is counted with unequal debits and credits; with a chart of the five types so does the balance sheet |
| CashRuns.SplitSaleUnbalances | app/common/bridge.py:1195-1198 | A cash sale of 100 with its cash line stamped 10 and its revenue line 20: at 15 the check and the trial balance both read 100 |
| Stamps.CountedIsFirstPart | app/accounting/repository.py:935-941 | Of lines stamped in order a cut-off counts a first part |
| Stamps.PlanDebitsFirst | app/accounting/service.py:792-919 | No first part of a whole-kobo sale's entries has more credits than debits |
| Audit.OtherTypesUnbalanceTheSheet | app/accounting/repository.py:785-785 | A chart with revenue typed income is accepted, and one receivable of 500 makes the check read 500 although every journal balances |
| Statements.TrialBalanceIsTheCheck | alembic/versions/y4z5a6b7c8d9_add_store_id_to_accounting.py:110-122 | Trial-balance debits less credits equal the check plus what lies on accounts of other types, which only the trial balance lists; without such accounts they equal the check |
| Statements.TrialBalanceIsTheSheet | alembic/versions/y4z5a6b7c8d9_add_store_id_to_accounting.py:110-122 | Re-signed by account type the trial balance gives every total of the balance sheet |
| Statements.TrialRows | alembic/versions/y4z5a6b7c8d9_add_store_id_to_accounting.py:112-122 | The trial balance lists an account exactly when something counted was booked to it, with its gross counted debits and credits |
| Statements.PnlRows | alembic/versions/y4z5a6b7c8d9_add_store_id_to_accounting.py:81-94 | The profit and loss statement lists a revenue or expense account exactly when its figure is not zero, with that figure |
| Statements.ProfitIsEarningsDifference | alembic/versions/y4z5a6b7c8d9_add_store_id_to_accounting.py:81-94 | Profit and loss over a range is the earnings at the inclusive cut-off less those strictly before the start, plus the lines without a stamp, which are counted in all three |
| Statements.AdjacentRanges | alembic/versions/y4z5a6b7c8d9_add_store_id_to_accounting.py:81-94 | Two adjacent ranges sum to the joined range plus exactly the lines stamped at the shared midnight or unstamped |
| Statements.DashboardIsSubLedger | alembic/versions/b7c8d9e0f1a2_add_store_id_to_ar_ap.py:281-290 | The status filter of the dashboard drops nothing when a paid row has no balance |
| Statements.DashboardLeavesOutPaid | alembic/versions/b7c8d9e0f1a2_add_store_id_to_ar_ap.py:281-290 | For any rows, the dashboard leaves out exactly the balances on rows marked paid |
| Audit.DashboardAgrees | alembic/versions/b7c8d9e0f1a2_add_store_id_to_ar_ap.py:281-290 | In every reachable state, for payments of any amount, the dashboard's outstanding figures equal the unfiltered sub-ledger sums, per store and tenant-wide |
| Audit.SettledOverRuns | alembic/versions/e5f6a7b8c9d0_add_payment_ledgers.py:123-123 | In every reachable state a row marked paid has a zero balance |
| CashFlow.CashFlowTelescopes | app/accounting/repository.py:1391-1433 | Net cash flow over a range is the cash balance at the end less the balance strictly before the start, plus exactly the cash lines that lie on the other side of an end of the range than their header |
| CashFlow.OnlySalesStray | app/accounting/repository.py:1391-1433 | Stamped as the code stamps them, only sales stray: by the cash of those caught across the start less the cash of those caught across the end |
| CashFlow.CrossesIffStraddled | app/common/bridge.py:1197-1202 | When lines are stamped no later than their header and sales take cash, nothing crosses a boundary exactly when no sale straddles it |
| CashFlow.NoDriftWhenStampedAlike | alembic/versions/y4z5a6b7c8d9_add_store_id_to_accounting.py:280-301 | That remainder is zero when header and lines share a stamp, as fn_post_journal writes them |
| CashFlow.GroupKeepsTotal | app/accounting/repository.py:1391-1433 | Grouping by journal, description and time keeps the total and gives each key one row |
| CashFlow.FlowRows | app/accounting/repository.py:1391-1433 | Rows differ in journal, description or posting time, and each shows what the lines of that description on 1000 moved on its side in that journal |
| CashRuns.ReachableCashFlow | app/accounting/repository.py:1007-1044 | On every reachable state, for sales of any amount whose tax is not above the total, the statement is the change in the cash balance plus that of the sales caught across its ends, and telescopes when no sale of the store straddles one |
| CashRuns.CashFlowExactly | app/accounting/repository.py:1007-1044 | The statement telescopes if and only if the sales caught across its start brought in as much cash as those caught across its end; with clocks that run forward neither is negative, and if no sale straddles one end, it telescopes if and only if none straddles the other |
| Stamps.AsWrittenOverRuns | app/common/bridge.py:1197-1202 | In every reachable state only sales stamp their lines apart from their header |
| CashRuns.LateSaleStrays | app/common/bridge.py:1197-1202 | A cash sale of 100 with lines stamped 10 and header 20: the statement for 0 to 15 shows nothing, the balance grows by 100 |
| Stores.DifferenceIsUncreditedPayments | app/accounting/routes.py:979-988 | As written, over every run of raising, collecting and moving receivables and for payments of any amount, each store's receivable difference is exactly minus what was collected on its rows since each row last moved, and one kobo for each payment on them that ended in half a kobo; the balance sheet shows it at any cut-off, moved by the store's lines of 1100 it does not count yet |
| Stores.DifferenceIsZeroIff | app/accounting/routes.py:979-988 | When no payment ends in exactly half a kobo, it is zero if and only if no payment was accepted on any of the store's rows since the row was raised or last moved |
| Stores.UntaggedPaymentLeavesAGap | app/accounting/routes.py:979-988 | 100 raised in a store and 40 collected leave its difference at minus 40 |
| Stores.CarryingTheStoreReconciles | app/accounting/routes.py:979-988 | Had the payment journals carried the row's store, every store's difference would be one kobo for each payment on its rows that ended in half a kobo, and zero without any |
| Stores.MoveReconcilesTheRow | app/accounting/routes.py:1062-1072 | Right after a move, whatever happened before, the row's journals tagged with each store hold exactly the row's balance there, less one kobo for each payment on it that ended in half a kobo |
| Stores.LinkCollected | alembic/versions/e5f6a7b8c9d0_add_payment_ledgers.py:143-146 | A payment credits no store while it lowers the row of its store |
| Stores.LinkShifted | app/accounting/routes.py:1062-1072 | A move carries the row's creation and payment journals, and nobody else's, to the new store |
| Heal.FindDuplicates | scripts/heal_duplicate_ar.py:47-59 | Returns exactly the rows that have an older row of the same number and amount, each once |
| Heal.DryRun | scripts/heal_duplicate_ar.py:80-126 | The dry pass adds the 1100 lines of the payment journals of every duplicate it would not skip |
| Heal.KeepsExactlyTheOldest | scripts/heal_duplicate_ar.py:131-209 | With no reversals beforehand exactly the rows that have an older row of the same number and amount are deleted, every deleted row has such a row among those that stay, and the next run finds nothing |
| Heal.PaymentsGoWithTheirRows | scripts/heal_duplicate_ar.py:205-206 | A ledger row goes exactly when the row it pays goes |
| Heal.RerunChangesNothing | scripts/heal_duplicate_ar.py:141-151 | From any books at all, with or without reversals, a second run changes nothing |
| Heal.ReversedToZero | scripts/heal_duplicate_ar.py:153-203 | On every account, each payment journal of a processed duplicate and its reversals come to zero |
| Reversals.HealsExactly | scripts/heal_duplicate_ar.py:131-196 | With no reversals beforehand, journal by journal: a posted payment journal of a row with an older twin is named by exactly one reversal, which brings every account back to zero, and any other journal by none; each reversal and its lines are posted now, in the duplicate's store, with the sides swapped |
| Reversals.RowsThatGo | scripts/heal_duplicate_ar.py:143-151 | From any books: a row goes exactly when it has an older twin and no reversal names one of its posted payment journals, or the row itself when it has none |
| Reversals.HealMovesExactly | scripts/heal_duplicate_ar.py:80-126 | With no reversals beforehand 1100 gets back what those journals had put on it, the difference moves by that less the balances that go, and the dry run prints minus the change to 1100 |
| Reversals.LedgerAgreesOverRuns | alembic/versions/e5f6a7b8c9d0_add_payment_ledgers.py:133-141 | Over every run and for payments of any amount, each row's payment ledger is what its posted payment journals credit to 1100, and no request writes a reversal |
| Reversals.HealAfterRun | scripts/heal_duplicate_ar.py:131-209 | Healing books that requests have reached with clean payments lowers the difference by exactly the amounts of the rows with an older twin, all of which go |
| Heal.HealMovesGap | scripts/heal_duplicate_ar.py:131-209 | The exact effect on the sub-ledger less control difference, for any books: deleted balances go, reversed 1100 lines come back |
| Heal.HealClosesTheGap | scripts/heal_duplicate_ar.py:153-206 | When payment journals sum to what their rows say was paid, the difference moves by exactly the sum of the deleted amounts |
| Heal.DryRunTellsTheChange | scripts/heal_duplicate_ar.py:80-126 | The dry run's figure is exactly minus the change the apply run makes to 1100 |
| Heal.HealAllRows | scripts/heal_duplicate_ar.py:205-206 | The rows and ledger rows left after any list of duplicates is processed |
| Backfill.CrashTolerant | scripts/backfill_pending_sales.py:263-305 | However many runs stopped between whichever commits, one run that reaches its end leaves each pending sale with the journals and rows it was heading for from the start, leaves other sales alone, and a further run changes nothing however far it gets |
| Backfill.ExactlyOneOfEach | scripts/backfill_pending_sales.py:61-196 | Exactly one journal and one row per pending sale, if and only if beforehand it had at most one journal and no more rows than journals |
| Backfill.JournalsMatchRows | scripts/backfill_pending_sales.py:199-260 | Then the 1100 debits of the sales' journals equal their totals and what their rows hold as paid or owing, sale by sale and in sum |
| BackfillRows.EveryNewRowOwes | scripts/backfill_pending_sales.py:94-110 | However many runs stopped, and wherever: earlier rows and journals are still there, every new row is a pending sale's, owes its whole total with nothing paid, pending, in the sale's store, and every new journal claims a pending sale's total on 1100 |
| BackfillRows.RunSuppliesTheMissing | scripts/backfill_pending_sales.py:199-260 | A run that reaches its end moves the receivable difference by exactly the totals of the pending sales that had a sale journal and no row |
| BackfillRows.RowSupplied | scripts/backfill_pending_sales.py:72-111 | The row the script adds, field by field, and that it adds none to a sale number that has one |
| Backfill.Completes | scripts/backfill_pending_sales.py:114-196 | With no account missing, and the sale still readable after the script's rollback, a run allowed three commits a sale reaches its end |
| Backfill.ProcessForward | scripts/backfill_pending_sales.py:263-305 | A single run, wherever it stops, loses nothing |
| Backfill.RowWithoutJournalDoubles | scripts/backfill_pending_sales.py:163-193 | A concrete sale with a row but no journal ends with two rows: the booking commit opens one of its own |
| Backfill.BookForward | scripts/backfill_pending_sales.py:121-175 | The booking commit keeps every sale heading for the same end |
| Backfill.EnsureForward | scripts/backfill_pending_sales.py:73-111 | So does adding a missing row by sale number |
| Opening.MigrateClosesGaps | alembic/versions/b9c8d7e6f5a4_book_ar_ap_to_gl.py:216-396 | From rows with payment journals but no creation journals and a full chart, one run makes both control accounts equal their sub-ledgers |
| Opening.MigrateMovesGaps | alembic/versions/b9c8d7e6f5a4_book_ar_ap_to_gl.py:216-396 | In general one run moves each difference by exactly the amounts of the rows that had no creation journal |
| Opening.EachRowOpenedOnce | alembic/versions/b9c8d7e6f5a4_book_ar_ap_to_gl.py:218-396 | Each such row gets exactly one opening journal, with its two lines in balance, its creation date and its store |
| OpeningReport.RowsAreOpened | alembic/versions/b9c8d7e6f5a4_book_ar_ap_to_gl.py:216-396 | One run gives each row that no creation journal names exactly one, with two posted lines stamped at the row's creation: a receivable debits 1100 and credits 4000, a payable debits its category's account and credits 2000, by the row's amount |
| OpeningReport.MigrateClosesTheReport | alembic/versions/b9c8d7e6f5a4_book_ar_ap_to_gl.py:216-396 | On the balance sheet, at a cut-off not before the last line and row, one run takes off each difference the amounts of the rows it opens, and leaves none when only payments had been booked |
| OpeningReport.PayableOpensBalancedIff | alembic/versions/b9c8d7e6f5a4_book_ar_ap_to_gl.py:300-395 | A payable's opening journal balances exactly when its category's account is in the chart or its amount is zero: the header asks for 2000 only |
| OpeningReport.NoReceivablesOpened | alembic/versions/b9c8d7e6f5a4_book_ar_ap_to_gl.py:218-245 | Without 1100 or without 4000 the receivables half opens nothing |
| OpeningReport.NoPayablesOpened | alembic/versions/b9c8d7e6f5a4_book_ar_ap_to_gl.py:300-330 | Without 2000 the payables half opens nothing |
| OpeningReport.TakenForOpening | alembic/versions/b9c8d7e6f5a4_book_ar_ap_to_gl.py:265-271 | A journal is taken for the opening journal of a row exactly by its kind, its reference and a description that ends in (opening entry) |
| Opening.NoOpExactly | alembic/versions/b9c8d7e6f5a4_book_ar_ap_to_gl.py:239-272 | A run changes nothing if and only if every row has a creation journal and none of these is an opening entry |
| Opening.TwiceIsNoOpExactly | alembic/versions/b9c8d7e6f5a4_book_ar_ap_to_gl.py:247-299 | Running it twice is a no-op if and only if the first run opened nothing |
| Opening.SecondRunDoubles | alembic/versions/b9c8d7e6f5a4_book_ar_ap_to_gl.py:247-299 | A second run moves every account once more by what the first run moved it |
| Opening.TwiceIsNotANoOp | alembic/versions/b9c8d7e6f5a4_book_ar_ap_to_gl.py:27-29 | One unbooked receivable on which the remark fails |
| Opening.SideNet | alembic/versions/b9c8d7e6f5a4_book_ar_ap_to_gl.py:247-299 | What one half books on any account: lines of the rows it opens, plus lines of opening journals it finds |
| Aggregates.StoresMakeTheDay | alembic/versions/a7b8c9d0e1f2_completed_only_daily_aggregates.py:29-79 | With every sale in an existing store, summing the store view over the stores gives the daily view in every shared column, and a day has a row exactly when one of its stores has |
| Aggregates.StoresAndOrphansMakeTheDay | alembic/versions/a7b8c9d0e1f2_completed_only_daily_aggregates.py:29-79 | In general the daily view exceeds the stores' rows by exactly the sales without an existing store |
| Aggregates.DaysMakeTheDetails | alembic/versions/c1d2e3f4a5b6_add_rpc_functions_and_materialized_views.py:58-65 | A store's days in a range, open ends included, add up to the count and revenue read directly |
| Aggregates.CellIsSum | alembic/versions/a7b8c9d0e1f2_completed_only_daily_aggregates.py:29-44 | A cell of a grouped view is the filtered sum over the sales of its key |
| Aggregates.DailyFigure | alembic/versions/a7b8c9d0e1f2_completed_only_daily_aggregates.py:29-44 | Each figure of the daily view is, over the tenant's sales of the day: how many completed, their totals, discounts and taxes, how many voided and their totals |
| Aggregates.StoreFigure | alembic/versions/a7b8c9d0e1f2_completed_only_daily_aggregates.py:46-79 | Each figure of the store view is the same over the sales of that store |
| Aggregates.DailyRow | alembic/versions/a7b8c9d0e1f2_completed_only_daily_aggregates.py:41-43 | The daily view has a row exactly for a tenant's day with a completed or voided sale |
| Aggregates.StoreRow | alembic/versions/a7b8c9d0e1f2_completed_only_daily_aggregates.py:75-78 | The store view has one exactly for such a day of a store that exists |
| Database.Books.PostJournal | alembic/versions/y4z5a6b7c8d9_add_store_id_to_accounting.py:264-306 | The two loops of fn_post_journal, totals then inserts, leave what the posting function says |
| Database.Books.InsertEntries | alembic/versions/y4z5a6b7c8d9_add_store_id_to_accounting.py:284-302 | The insert loop writes each line in turn and raises at the first entry without an account |
| Database.Books.CreateReceivable | alembic/versions/b9c8d7e6f5a4_book_ar_ap_to_gl.py:76-124 | Row and journal together, or nothing |
| Database.Books.CreatePayable | alembic/versions/c7d8e9f0a1b2_add_vendor_id_to_payables.py:76-145 | Row and journal together, or nothing |
| Database.Books.RecordArPayment | alembic/versions/e5f6a7b8c9d0_add_payment_ledgers.py:103-147 | Row and ledger row move together, or an error is answered and nothing changes |
| Database.Books.RecordApPayment | alembic/versions/e5f6a7b8c9d0_add_payment_ledgers.py:169-213 | The same for payables |
| Database.Books.PostPaymentJournal | app/accounting/routes.py:235-298 | The cash leg of a payment, refused when an account is missing |
| Database.Books.PayReceivable | app/accounting/routes.py:961-999 | A failed journal rolls the payment back |
| Database.Books.PayPayable | app/accounting/routes.py:1160-1194 | The same for payables |
| Database.Books.CreateExpense | alembic/versions/y4z5a6b7c8d9_add_store_id_to_accounting.py:322-363 | Journal and expense together, or nothing |
| Database.Books.MoveReceivable | app/accounting/routes.py:1051-1072 | Row and bulk UPDATE of its journals |
| Database.Books.MovePayable | app/accounting/routes.py:1218-1270 | The same for payables |
| Database.Books.MoveExpense | app/accounting/routes.py:1337-1357 | Expense and its one journal |
| Database.Books.DeleteAccount | app/accounting/repository.py:171-196 | Refused while any line names the account, otherwise the account alone goes |
| Database.Books.RemitTax | app/accounting/routes.py:757-833 | The checks against the owed lines, then the posting |
| Database.Books.PostSale | app/common/bridge.py:1118-1231 | Resolve every entry, then header, lines stamped one by one and the receivable row, in one commit |
| Database.Books.ApplyHeal | scripts/heal_duplicate_ar.py:131-209 | The apply pass with its three nested loops |
| Database.Books.BackfillPendingSales | scripts/backfill_pending_sales.py:263-312 | The booking and reconciling passes; one that ends has counted each pending sale once, as booked or skipped |
| Database.Books.ReconcileSubledger | scripts/backfill_pending_sales.py:211-244 | The reconciling pass alone |
| Database.Books.BookOne | scripts/backfill_pending_sales.py:114-196 | Re-check, booking commit, row commit |
| Database.Books.EnsureReceivable | scripts/backfill_pending_sales.py:73-111 | Adds a row when no row bears the sale's number |
| Database.Books.MigrateOpenings | alembic/versions/b9c8d7e6f5a4_book_ar_ap_to_gl.py:216-396 | Guarded header inserts, then unguarded line inserts, for receivables and then payables |
| Database.Books.InsertHeaders | alembic/versions/b9c8d7e6f5a4_book_ar_ap_to_gl.py:218-245 | One header per row without a creation journal |
| Database.Books.InsertLines | alembic/versions/b9c8d7e6f5a4_book_ar_ap_to_gl.py:247-272 | One more line for every journal that joins a row |

## Left out

- Aggregates.DaysMakeTheDetails: the remaining figures of get_store_details (stock, products) read other tables.
- Aggregates.StoresMakeTheDay: the cash, card, transfer and average columns exist in one view only or are quotients of the shared ones.
- Backfill.Completes: supposes that reading the sale after the rollback at scripts/backfill_pending_sales.py:179 succeeds, although the script's own comment (143-145) says such a read fails outside the async context; where it fails, the run stops there and Backfill.CrashTolerant applies.
- Backfill.CrashTolerant: platform fees, whose recording is not part of this model, and concurrent changes of a sale's status while the script runs.
- Backfill.JournalsMatchRows: supposes that earlier journals and rows of the sale carry its total.
- Heal.RerunChangesNothing: one tenant; the script is limited to one by its required argument.
- TaxRuns.TaxConserved: an account only taxes use; for any other account TaxDebits.CollectedLessRemittedIff gives the exact figure tenant-wide, which may be negative.
- Stores.DifferenceIsUncreditedPayments: rows made by create-receivable; a receivable opened by a sale keeps the sale's journal where it was when the row moves, because that journal is not among those a move retags.
- Audit.ReachableBooksBalance: sales whose totals and taxes are whole kobo with the tax not above the total; Mixed.CheckOverMixedRuns bounds the check for sales of any amount.
- Hand-posted journals are in the tolerance results only: they may name any account and any sign, so the control-account, cash flow and tax results do not hold for them.
- plan_create_journal, _determine_entry_type and the `amount` column of a line: no report modelled here reads what they decide.
- get_taxes_collected and the remittance history: the same folds as taxes owed with other labels.
- The order of report rows, account names, journal numbers, and most wording of descriptions; only the endings the repair programs search for are kept exactly.
- The overflow of Numeric(15,2), binary floating point, and the second rounding of report totals that are whole kobo already.
- The older Python paths for recording payments, which the routes do not call.
- Sessions, permissions, row-level security, audit rows, caching, HTTP validation, date parsing and the assistant.
