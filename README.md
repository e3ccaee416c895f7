# Goat-farm management (BUMDes): a verified model of the ledger and reports

The application keeps the goat herd of a village-owned enterprise (BUMDes) and its cash
ledger. This project models the parts of it that compute something:

- the data model:
  - the `goats` and `transactions` tables with their enumerations and decimal precision;
  - the Goat and Transaction models: the `healthy`, `income` and `expense` scopes, the relations
    between the two tables, `age_in_months` and `formatted_amount`.
- the financial report (`ReportController::index`):
  - the profit-and-loss statement grouped by category over an inclusive date range;
  - the simple balance sheet: cash, live inventory, initial capital and retained earnings.
- the dashboard (`DashboardController::index`):
  - goat counts per status and this month's income, expense and profit;
  - the inventory value and the five latest transactions;
  - a six-month income/expense series, built by a loop (`Dashboard.MonthlySeries`).
- the `onDelete('set null')` foreign key from `transactions.goat_id` to `goats.id`. It is modelled
  as the class `TransactionsTable.Ledger`. Its method `DeleteGoat` walks the ledger in place,
  clearing every reference to the goat, and then removes the goat.
- the form requests:
  - `UpdateTransactionRequest` and `StoreGoatRequest`, written as a validator that returns either
    the set of fields that failed or the accepted data.
- the page helpers of `transactions/index.tsx` and `goats/index.tsx`:
  - the category labels and emoji, the page totals, the +/- sign;
  - the status badges, the summary cards, and the "-" placeholders.

Conventions:

- Money is an integer number of cents, and weight is hundredths of a kilogram. This matches the
  `decimal(_, 2)` columns and the `decimal:2` casts.
- Dates are `Calendar.Date(year, month, day)`, ordered lexicographically.
- The enumerations keep the code's Indonesian values:
  - types: `pemasukan` (income) and `pengeluaran` (expense);
  - categories: `penjualan_kambing`, … `lainnya`;
  - statuses: `sehat`, `sakit`, `dijual`, `mati`;
  - genders: `jantan`, `betina`.
- The `type` column is the field `kind`, because `type` is a Dafny keyword.
- A database table is a sequence of rows in id order. A query `where` is `Seqs.Where`, which keeps
  the rows in order, and `SUM` is `TransactionModel.SumAmount`, which gives 0 over no rows.
- The current date (`Carbon::now()`, `now()`, `today`) is a parameter `today`/`now`.

## Model

| member | source | states |
|---|---|---|
| Calendar.DaysInMonth | app/Http/Controllers/DashboardController.php:52 | The length of a month, which `endOfMonth` lands on: 28 to 31 days, and 28 exactly in February of a common year. |
| Calendar.MonthWindow | app/Http/Controllers/DashboardController.php:51-52 | A valid date lies between `startOfMonth` and `endOfMonth` of a month (both inclusive) if and only if it is in that month. |
| Calendar.SubMonths | app/Http/Controllers/DashboardController.php:50-51 | The intended "i months before this month": the result is a valid month exactly i months earlier. It is the corrected month arithmetic of the finding. |
| Calendar.CarbonSubMonths | app/Http/Controllers/DashboardController.php:50 | Carbon's overflowing `subMonths` as written. The result is a valid date, either in the month i months back with the same day, or in the month after that on day 1 to 3. The second happens exactly when the day is past the target month's length, and then the day is the excess over that length (31 March minus one month is 3 March in a common year). |
| Calendar.WholeMonthsBetween | app/Models/Goat.php:110 | `diffInMonths`: it is never negative going forward and never positive going back. Forward, it is the calendar-month difference or one less. |
| NumberFormat.Numeral | app/Models/Transaction.php:112 | Decimal digits of a natural number: non-empty, all digits, and no leading zero except for 0 itself. |
| NumberFormat.NumeralRoundTrip | app/Models/Transaction.php:112 | Reading the digits back gives the number. |
| NumberFormat.GroupThousandsShape | app/Models/Transaction.php:112 | `number_format` with the '.' thousands separator: groups of three after a head of one to three digits, and with the dots removed exactly the plain numeral. |
| NumberFormat.RoundToUnits | app/Models/Transaction.php:112 | `number_format(x, 0)` rounding: the whole-unit value within half a unit of the cents, with halves rounded away from zero. |
| NumberFormat.FormatUnits | app/Models/Transaction.php:112 | The formatted number: a '-' sign only for negative rounded values, then the grouped digits of the rounded magnitude. |
| TransactionModel.ToCents | app/Models/Transaction.php:72 | The `decimal:2` cast of a number to cents: nearest cent, with halves away from zero. At least 1 for 0.01 and up, and never negative for non-negative input. |
| TransactionModel.ScopeIncome | app/Models/Transaction.php:89-92 | `scopeIncome` keeps exactly the rows whose type is `pemasukan`. |
| TransactionModel.ScopeExpense | app/Models/Transaction.php:100-103 | `scopeExpense` keeps exactly the rows whose type is `pengeluaran`. |
| TransactionModel.ScopesDisjoint | app/Models/Transaction.php:89-103 | No row is in both scopes. Together they cover the ledger exactly when every type is one of the two. |
| TransactionModel.IncomeMinusExpense | app/Http/Controllers/ReportController.php:46-49 | The income sum minus the expense sum is the running signed balance: + income, − expense, 0 for any other type. |
| TransactionModel.FormattedAmount | app/Models/Transaction.php:110-113 | "Rp " followed by the grouped rounded amount. Without the dots, it is the numeral of the amount in whole rupiah, after a '-' when the amount rounds to a negative number. An amount that rounds to zero, such as −0.49, gives "Rp 0". |
| TransactionModel.WellFormed | database/migrations/2024_01_01_000002_create_transactions_table.php:16-32 | The rows the `transactions` columns admit: a valid date, a type and a category from their enumerations, an amount within `decimal(15, 2)`, and a description and reference of at most 255 characters. `goat_id` and `notes` have no further constraint. |
| GoatModel.WellFormed | database/migrations/2024_01_01_000001_create_goats_table.php:16-24 | The rows the `goats` columns admit: tag and breed of at most 255 characters, a gender and a status from their enumerations, valid dates, and weight and price within `decimal(8, 2)` and `decimal(15, 2)`. Tag uniqueness is a property of the table (`StoreKeepsTagsUnique`). |
| GoatModel.ScopeHealthy | app/Models/Goat.php:94-97 | `scopeHealthy` keeps exactly the goats whose status is `sehat`. |
| GoatModel.CountIsSelectionSize | app/Http/Controllers/DashboardController.php:21-23 | `where('status', s)->count()` is the size of the selection. |
| GoatModel.StatusCounts | app/Http/Controllers/DashboardController.php:20-23 | The healthy, sick and sold counts (and the dead count with them) add up to at most the total. When every status is one of the four, the four add up to exactly the total. |
| GoatModel.InventoryIsSumOfShares | app/Http/Controllers/ReportController.php:51-52 | The live inventory value (`sehat` or `sakit`, summing `purchase_price` with null as nothing) is the sum of per-goat shares, in which sold and dead goats add 0. |
| GoatModel.InventoryNonNegative | app/Http/Controllers/ReportController.php:51-52 | With no negative price, the inventory value is not negative. |
| GoatModel.SharesNonNegative | app/Http/Controllers/ReportController.php:51-52 | With no negative price, the sum of shares is not negative. |
| GoatModel.AgeInMonths | app/Models/Goat.php:104-111 | `age_in_months` is null exactly when there is no birth date. Otherwise it is the whole months from birth to now: non-negative after birth, the calendar-month difference or one less. |
| ModelRelations.GoatTransactions | app/Models/Goat.php:83-86 | `hasMany`: exactly the transactions whose `goat_id` is the goat's id. |
| ModelRelations.TransactionGoat | app/Models/Transaction.php:78-81 | `belongsTo`: the goat whose id is `goat_id`, if there is one. It is null when `goat_id` is null or refers to no goat. |
| ModelRelations.RelationsAgree | app/Models/Goat.php:83-86 | With unique goat ids, a transaction belongs to a goat if and only if it is among that goat's transactions. |
| TransactionsTable.ClearGoatReferences | database/migrations/2024_01_01_000002_create_transactions_table.php:31 | `set null`: every row that referred to the goat has a null `goat_id`. Every other row, and every other column, is unchanged, in order. |
| TransactionsTable.NoReferenceRemains | database/migrations/2024_01_01_000002_create_transactions_table.php:31 | After the clearing, the deleted goat has no transactions. |
| TransactionsTable.ClearingKeepsSums | database/migrations/2024_01_01_000002_create_transactions_table.php:31 | Any query that does not look at `goat_id` (for example type, category or date) sums to the same amount before and after the clearing. |
| TransactionsTable.ClearingKeepsCash | database/migrations/2024_01_01_000002_create_transactions_table.php:31 | Deleting a goat does not change the cash balance. |
| TransactionsTable.RemoveGoat | database/migrations/2024_01_01_000002_create_transactions_table.php:31 | The referenced `goats` row is gone, and every other goat remains. |
| TransactionsTable.FilterKeepsUniqueIds | database/migrations/2024_01_01_000002_create_transactions_table.php:15 | Removing rows keeps the primary-key ids unique. |
| TransactionsTable.Ledger.constructor | database/migrations/2024_01_01_000002_create_transactions_table.php:14-32 | A ledger over given tables with unique goat ids whose references resolve. |
| TransactionsTable.Ledger.DeleteGoat | database/migrations/2024_01_01_000002_create_transactions_table.php:31 | Deleting a goat clears every reference to it in place, then removes it. The new transactions are `ClearGoatReferences` of the old, and the new goats are `RemoveGoat`. Unique ids and resolving references are kept. |
| Report.CategoryLabelLookup | app/Http/Controllers/ReportController.php:61-81 | The label table has exactly the eight category keys. A known category gets its label, and any other category is shown as itself (`?? $category`). |
| Report.Categories | app/Http/Controllers/ReportController.php:29-32 | `groupBy('category')`: every category that occurs, once each, and no other. |
| Report.GroupTotal | app/Http/Controllers/ReportController.php:41-42 | The per-category totals add up to the sum of the whole selection. |
| Report.GroupByCategory | app/Http/Controllers/ReportController.php:78-91 | One line per occurring category, no duplicates. Each line has the category's label and the category's `SUM(amount)`, and the lines add up to the selection's total. |
| Report.ProfitAndLoss | app/Http/Controllers/ReportController.php:27-43 | The income lines group the `pemasukan` rows dated within the inclusive range, and the expense lines the `pengeluaran` rows. Each total is the sum of its lines and of its query, and net profit is income minus expense. |
| Report.EmptyRange | app/Http/Controllers/ReportController.php:27-43 | A reversed range, or one that no row falls in, gives no lines and all-zero totals. |
| Report.Cash | app/Http/Controllers/ReportController.php:46-49 | Cash is the signed balance of all rows, at any date (0 with no rows). |
| Report.BalanceSheetOf | app/Http/Controllers/ReportController.php:46-106 | Cash is the signed balance and inventory the live goats' prices. Assets are cash plus inventory, and initial capital is the `modal_awal` sum. Initial capital plus retained earnings is cash, and equity's total equals assets' total. |
| Report.Index | app/Http/Controllers/ReportController.php:19-24 | The range defaults to the start of this year through today. The statement and sheet are computed over the range actually used. |
| Report.InitialCapitalScenario | app/Http/Controllers/ReportController.php:46-58 | A single initial-capital deposit of Rp 50,000,000 is all cash, all initial capital, and zero retained earnings. |
| Report.GoatPurchaseScenario | app/Http/Controllers/ReportController.php:46-58 | Paying Rp 2,000,000 for a healthy goat: cash −2,000,000 and inventory +2,000,000, so total assets 0 and retained earnings −2,000,000. |
| Dashboard.NothingThisMonth | app/Http/Controllers/DashboardController.php:26-35 | With no row dated this month or later, this month's income, expense and profit are 0. |
| Dashboard.StatsOf | app/Http/Controllers/DashboardController.php:20-39 | The stat cards. The total is the table size. The healthy, sick and sold counts are the sizes of the `sehat`, `sakit` and `dijual` selections, and they add up as in `StatusCounts`. Monthly income and expense are the month-to-date sums of the income and expense scopes, and profit is their difference. Inventory is the sum of live shares. |
| Dashboard.SortNewestFirst | app/Http/Controllers/DashboardController.php:43 | `latest('transaction_date')`: a permutation of the rows, ordered newest first. |
| Dashboard.Latest | app/Http/Controllers/DashboardController.php:43-44 | `latest()->limit(n)`: min(n, rows) rows, newest first, drawn from the ledger. No row left out is newer than any row kept. |
| Dashboard.RecentTransactions | app/Http/Controllers/DashboardController.php:42-45 | The five latest transactions, or all of them if fewer, each with its `belongsTo` goat eager-loaded. |
| Dashboard.WindowSumIsQuery | app/Http/Controllers/DashboardController.php:54-60 | The loop's per-month sum is the `where('type')->whereBetween(date)->sum('amount')` query. |
| Dashboard.EntryFor | app/Http/Controllers/DashboardController.php:51-66 | A month's entry is for that month, and its profit is income minus expense. |
| Dashboard.EntryIsMonthSum | app/Http/Controllers/DashboardController.php:51-66 | A month's income and expense are the income and expense scopes' sums over exactly the rows dated in that month. |
| Dashboard.SeriesMonths | app/Http/Controllers/DashboardController.php:49-51 | With corrected month arithmetic (see Findings): six consecutive months ending with this month, the k-th being 5−k months back. |
| Dashboard.Series | app/Http/Controllers/DashboardController.php:48-68 | With corrected month arithmetic (see Findings): six entries for six consecutive months, oldest first and ending with this month, each the entry of its month. |
| Dashboard.MonthlySeries | app/Http/Controllers/DashboardController.php:48-68 | The loop from i = 5 down to 0 builds exactly `Series`. |
| Dashboard.MonthToDateMatchesSeries | app/Http/Controllers/DashboardController.php:26-33 | When no row is dated after today, the month-to-date figures equal the last entry of the series. |
| Dashboard.OverflowRepeatsMonths | app/Http/Controllers/DashboardController.php:50 | As written, on 2026-03-31 the months for i = 1 and i = 0 are both March 2026, i = 4 gives December 2025, and February is missing. |
| Dashboard.Index | app/Http/Controllers/DashboardController.php:17-83 | The page props are the stats, the recent transactions and the monthly series defined above, the series with corrected month arithmetic (see Findings). |
| UpdateTransactionRules.Authorize | app/Http/Requests/UpdateTransactionRequest.php:12-15 | Every user is authorised. |
| UpdateTransactionRules.Errors | app/Http/Requests/UpdateTransactionRequest.php:24-33 | A field is in the error set if and only if its rule fails. |
| UpdateTransactionRules.Validate | app/Http/Requests/UpdateTransactionRequest.php:24-33 | Never forbidden. Accepted if and only if no rule fails, otherwise rejected with exactly the failing fields. Accepted data has a valid date on or before today, a type and category from their lists, a 1–255 character description, an amount of at least 0.01, a reference of at most 255 characters, and an existing goat id if one is given. A nullable key is left out of the data exactly when the request does not carry it. The accepted data is the request's own values: the date, type, category and description as given, the amount converted to cents, and each nullable key as validated (left out, null or its value). |
| UpdateTransactionRules.ApplyUpdate | app/Http/Controllers/TransactionController.php:85 | `update($request->validated())`. The row keeps its id and takes the date, type, category, description and amount. Each of `reference`, `goat_id` and `notes` keeps its stored value when its key was left out, and otherwise takes the new value or null. |
| UpdateTransactionRules.UpdateKeepsAbsentKeys | app/Http/Controllers/TransactionController.php:85 | From request to row: a nullable key the request does not carry keeps the stored value, one sent as null clears it, and one with a value sets it. |
| UpdateTransactionRules.ApplyUpdateIdempotent | app/Http/Controllers/TransactionController.php:85 | Applying the same validated data twice gives the same row as applying it once. |
| UpdateTransactionRules.AcceptedUpdateFits | app/Http/Requests/UpdateTransactionRequest.php:25-30 | Accepted data applied to a stored row the columns admit, with an amount below the column's limit, gives a row the `transactions` columns admit, dated no later than today. |
| UpdateTransactionRules.CategoryIndependentOfType | app/Http/Requests/UpdateTransactionRequest.php:26-27 | The category rule does not depend on the type, so an income row filed under "pembelian_pakan" is accepted. |
| UpdateTransactionRules.AmountUnbounded | app/Http/Requests/UpdateTransactionRequest.php:29 | `min:0.01` has no upper bound, so 10^13 is accepted although it exceeds `decimal(15, 2)`. |
| StoreGoatRules.Authorize | app/Http/Requests/StoreGoatRequest.php:12-15 | Every user is authorised. |
| StoreGoatRules.Errors | app/Http/Requests/StoreGoatRequest.php:24-34 | A field is in the error set if and only if its rule fails. |
| StoreGoatRules.OptionalCents | app/Http/Requests/StoreGoatRequest.php:29-31 | A nullable number is present exactly when it was given, and it is not negative when the input is not. |
| StoreGoatRules.Validate | app/Http/Requests/StoreGoatRequest.php:24-34 | Never forbidden. Accepted if and only if no rule fails, otherwise rejected with exactly the failing fields. Accepted data has a new tag of 1–255 characters, a breed, a gender and a status from their lists, dates not after today, and non-negative weight and price. The accepted data is the request's own values: tag, breed, gender and status as given, each optional date and the notes as given or null, and weight and price converted to cents or null. |
| StoreGoatRules.NewGoat | app/Http/Controllers/GoatController.php:40 | `Goat::create($request->validated())`: the stored goat has the given id, and every one of the nine validated fields is stored as given. A nullable key the request left out is null. |
| StoreGoatRules.AcceptedGoatFits | app/Http/Requests/StoreGoatRequest.php:27-32 | Accepted data, with weight and price below their column limits, gives a row the `goats` columns admit. |
| StoreGoatRules.StoreKeepsTagsUnique | app/Http/Requests/StoreGoatRequest.php:25 | `unique:goats,tag_number`: storing an accepted goat keeps all tags distinct. |
| TransactionsPage.LabelsMatchReport | resources/js/pages/transactions/index.tsx:63-75 | The page's label table is the report's, and `labels[c] \|\| c` gives the same label as the report's `?? $category` for every category. |
| TransactionsPage.EmojiLookup | resources/js/pages/transactions/index.tsx:77-89 | The emoji table has exactly the eight keys, and an unknown category falls back to the memo emoji. Only `lainnya` shares that emoji. |
| TransactionsPage.Totals | resources/js/pages/transactions/index.tsx:92-100 | The page totals are the income and expense scopes' sums over the rows on the page, and the net is their difference (the signed balance). An empty page gives zeros. |
| TransactionsPage.ForeignTypeIgnored | resources/js/pages/transactions/index.tsx:92-98 | A row of any other type changes none of the totals. |
| TransactionsPage.SignPrefix | resources/js/pages/transactions/index.tsx:255 | '+' exactly for income, '-' for everything else. |
| TransactionsPage.SignMatchesEffect | resources/js/pages/transactions/index.tsx:251-256 | For a positive income or expense row, the sign shown is the sign of its effect on cash. |
| GoatsPage.StatusBadgeLookup | resources/js/pages/goats/index.tsx:64-72 | The badge table has exactly the four statuses, each with its own label, and an unknown status falls back to the `sehat` badge. |
| GoatsPage.Paginate | app/Http/Controllers/GoatController.php:18-20 | `paginate(10)` sends at most ten rows, a run of the ordered goats starting at row (p−1)·10, a full ten whenever that many remain, next to a top-level `total` equal to the number of goats and no `meta`. |
| GoatsPage.PageCards | resources/js/pages/goats/index.tsx:83-113 | The cards as intended, reading the paginator's `total`: the "total" card is `total`, and the other cards count the statuses on the current page only. Those counts add up to at most the page size. It is the corrected half of the `meta.total` finding. |
| GoatsPage.CardsOfHerd | resources/js/pages/goats/index.tsx:83-113 | On any page of the herd, the "total" card is the number of goats, and each status card is at most the number of goats of that status in the whole herd. |
| GoatsPage.TotalCardFails | resources/js/pages/goats/index.tsx:113 | As written, `goats.meta.total` reads a property of the missing `meta`, so on every page of every herd the total card fails. |
| GoatsPage.TruthyCell | resources/js/pages/goats/index.tsx:46-53 | A nullable price, age or weight shows "-" exactly when it is null or zero (falsy), and the value otherwise. `formatCurrency` and the age and weight columns (lines 207 and 210) share this test. |
| GoatsPage.DateCell | resources/js/pages/goats/index.tsx:55-62 | `formatDate` shows "-" exactly for a null date. |
| GoatsPage.AgeCell | resources/js/pages/goats/index.tsx:207 | The age column as intended, with `age_in_months` sent: it shows the age exactly when there is a birth date and the age is not 0. The value shown is `age_in_months`. It is the corrected half of the `$appends` finding. |
| GoatsPage.OlderGoatShowsAge | resources/js/pages/goats/index.tsx:207 | A goat born at least two calendar months ago has its age shown, as a positive number of months. |
| GoatsPage.NewbornShowsDash | resources/js/pages/goats/index.tsx:207 | A goat born this month, like one with no birth date, shows "-" rather than "0 bulan". |
| GoatsPage.AgeNeverShown | app/Models/Goat.php:104-111 | As written, with no `$appends`, a goat born on 2024-01-15 is 26 months old on 2026-03-31, yet the age column shows "-". |
| GoatsPage.GenderLabel | resources/js/pages/goats/index.tsx:202 | "Jantan" exactly for `jantan`, and "Betina" for every other value. |

## Left out

- HTTP, Inertia rendering, sessions, authentication middleware and the JSON encoding of props are not modelled. The controllers are functions of the table contents and of `today`.
- The clock is a parameter (`today`/`now`). The time of day is not modelled: every comparison is by calendar date (`transaction_date` is a `date` column).
- `Carbon::parse` of the `start_date`/`end_date` strings is not modelled. The dates arrive parsed, and an unparsable string is not modelled.
- The `(float)` casts in the controllers, and the JavaScript `number` arithmetic of the page totals (`reduce`), are modelled exactly in cents. Rounding in floating point is not modelled.
- Laravel serialises `decimal:2` attributes as strings, so the page's `sum + t.amount` may concatenate strings rather than add numbers. The model adds numbers, which is what the page evidently intends.
- Report.GroupByCategory: SQL `GROUP BY` fixes no order for the groups. The model lists them in first-appearance order (`LineCategories(ls) == Categories(ts)`), so that ensures fixes one order the database does not promise. The other clauses (one line per category, no duplicates, each line's sum, the total) hold for any order.
- Dashboard.RecentTransactions: the database does not fix the order among rows with the same date. `r[i] == Latest(ts, 5)[i]` ties the result to the model's own order for ties. `Latest`'s contract (newest first, drawn from the ledger, nothing newer left out) holds for any order of ties.
- `initialCapital` sums the `modal_awal` rows of either type, as the query does. The model does not restrict them to income.
- The transactions page receives its page of rows as a parameter. Its pagination footer (transactions/index.tsx:318-320, and goats/index.tsx:283-285) reads `meta.from`, `meta.to` and `meta.total` like the goats' total card, and fails the same way, but it is not modelled. `GoatsPage.Paginate` takes the goats already in `tag_number` order, and a page past the last one is empty.
- The month label `format('M Y')`, the `Intl.NumberFormat`/`toLocaleDateString` output text, and the badge emoji and colours (the emoji are mis-encoded in the source) are not modelled. The model keeps which cell is "-", and the badge's label and colour class.
- JavaScript object-prototype keys (such as `constructor`) in `labels[c]` and `emojis[c]` are not modelled. The lookup is a map of the eight keys.
- String lengths for `max:255` count Unicode code points as `mb_strlen` does (one `char` each). The `unique` and `exists` rules compare exactly, so database collation (case-insensitivity) is not modelled.
- Calendar.WholeMonthsBetween: `diffInMonths` is stated as the calendar-month difference or one less, not Carbon's exact day-of-month and time rule.
- GoatModel.AgeInMonths: it is weaker than Carbon in the same way, because it is built on `WholeMonthsBetween`.
- UpdateTransactionRules.AcceptedUpdateFits: it requires the stored row to satisfy the columns, since the columns a request leaves out are kept from it. It also requires the amount to be below the `decimal(15, 2)` limit. The validator does not check this, as `AmountUnbounded` shows, so the database would reject the value.
- StoreGoatRules.AcceptedGoatFits: it requires weight and price below the `decimal(8, 2)` and `decimal(15, 2)` limits, for the same reason. `min:0` has no maximum.
- The `date` rule's format parsing and the `numeric` rule's string parsing are not modelled. An input key is absent, null, unparsable or a parsed value.
- The TrimStrings and ConvertEmptyStringsToNull middleware, which run before the rules, are not modelled. String inputs are taken as already trimmed, so an untrimmed " G-001" would pass `unique` in the model even when "G-001" exists.
- GoatsPage.TruthyCell: it follows the page's declared `number \| null` props. Laravel serialises `weight` and `purchase_price` (`decimal:2`) as strings, and "0.00" is truthy, so the page shows "Rp 0" or "0.00 kg" for a stored zero rather than "-". The model does not capture this.
- Of GoatController and TransactionController, only `store` (`Goat::create`, GoatController.php:40) and `update` (TransactionController.php:85) are modelled, next to the form requests and the delete cascade. The listing and show actions and the factories and seeder are not modelled.

## Findings

| source | as written | input that shows it | evidently intended | confidence | as-written member | corrected member |
|---|---|---|---|---|---|---|
| app/Http/Controllers/DashboardController.php:50 | `Carbon::now()->subMonths($i)` keeps the day of the month. If the target month is shorter, the day overflows into the next month, and only then is `startOfMonth` taken. | today = 2026-03-31. For i = 5..0 the months are Oct 2025, Dec 2025, Dec 2025, Jan 2026, Mar 2026, Mar 2026, so November and February are missing and two months repeat. | Six consecutive calendar months ending with the current one (`subMonthsNoOverflow`, or `startOfMonth()` before `subMonths`). | not executed | Dashboard.OverflowRepeatsMonths | Dashboard.MonthlySeries |
| app/Models/Goat.php:104-111 | `getAgeInMonthsAttribute` is an accessor, but `Goat` declares no `$appends` and `GoatController::index` appends nothing. `age_in_months` is therefore not among the serialised attributes, and goats/index.tsx:207 tests `undefined`. | A goat born 2024-01-15 on 2026-03-31: its age is 26 months, but the age column shows "-", as it does for every goat. | The page shows "n bulan" whenever the age is non-zero (`protected $appends = ['age_in_months']`). | not executed | GoatsPage.AgeNeverShown | GoatsPage.AgeCell |
| resources/js/pages/goats/index.tsx:113 | The page's props declare `goats.meta: PaginationMeta`, and the total card reads `goats.meta.total`. `paginate(10)` (GoatController.php:20) returns a `LengthAwarePaginator`, whose array form carries `total` at the top level and has no `meta` key. `goats.meta` is therefore `undefined` and reading `.total` throws. | Any goats table, on any page: `Paginate(goats, p).meta` is `None`. | The card shows the number of goats (`goats.total`, or a resource collection that does add `meta`). | not executed | GoatsPage.TotalCardFails | GoatsPage.PageCards |
