# Student loan tracker: payoff engine, allocator, importer and demo table

This project models the computational core of a student-loan tracking web
application and proves properties of it in Dafny. It covers five pieces.

- **The payoff simulator** (`Utils`, from `src/lib/utils.js`). It keeps one balance per loan, in avalanche order (highest rate first, fixed once). Each month it:
  - accrues interest on every owing loan;
  - caps the payment at balance plus interest;
  - debits the interest;
  - pays the rest as principal, highest rate first;
  - emits a row rounded to cents.

  It stops once the balance is paid off or after 360 months. The module also holds the weighted average rate and the scenario summary. The month loop is an imperative method over an array of balances. It is proved equal to a functional specification (`Run`, `Emit`, `Amortization`), and the schedule's properties are proved about that specification.
- **The payment advisor** (`Advisor`, from `src/app/advisor/page.js`):
  - the per-loan figures derived from the loans;
  - the engine that splits one lump payment. Interest is covered in full, or in proportion when the payment falls short. Principal goes highest rate first. Every figure is then rounded to cents. The engine mutates an array of allocation records in four passes, each proved against a function.
- **The statement importer** (`CsvImport`, from `src/app/import/page.js`):
  - the quote-aware CSV line splitter;
  - the money parser;
  - the conversion of an exported transaction history into rows (loan id, loan type, ISO date);
  - the payment fingerprint used for de-duplication;
  - the comparison of an import with the database: current balances, balance changes, new payments and counts.
- **The amortization screen** (`AmortizationPage`, from `src/app/amortization/page.js`):
  - the budget-derived monthly payment;
  - the payment history grouped by month with running totals;
  - the projection;
  - history and projection joined into one schedule;
  - the chart's down-sampling.
- **The demo database** (`MockDb`, from `src/lib/supabase.js`). A `Database` class holds the table map and can be reset to its seed. A `QueryBuilder` class records equality filters, an ordering, a limit and an operation. `Execute` runs select, insert, update or delete against the tables.

Shared modules:
- `Money`: Min/Max/Abs, cent rounding `Round2`, `Sum`;
- `StableSort`: the stable sort JavaScript's `Array.prototype.sort` performs;
- `Text`: `split`, `join`, `trim`, `includes`, `toLowerCase`, string `<`, `padStart`, `toFixed(2)`;
- `Wrappers`: `Option`, `Result`.

## Conventions

- **Money** is an exact `real`. `Math.round(x * 100) / 100` is `Money.Round2(x) = Floor(100x + 1/2) / 100`; JavaScript rounds halves up, and so does this. Rates and balances are the numbers the program obtains with `Number(...)`.
- **Per-loan dictionaries.** The simulator keys its dictionaries by loan id and walks them in avalanche order. The model holds an array indexed by position in that order, which is the same thing when loan ids are distinct.
- **Parameters for what the source takes from outside:**
  - `parseFloat` (import);
  - number-to-string conversion (`String(value)` in the table's `eq`);
  - id generation and the clock (`insert`).

## Model

| member | source | states |
|---|---|---|
| Utils.WeightedAvgRateBetween | src/lib/utils.js:34-39 | With non-negative balances and every rate in [lo, hi], the weighted average rate is 0 when the total balance is 0 and otherwise lies in [lo, hi] |
| Utils.BalanceSumNonNegative | src/lib/utils.js:35 | The total of non-negative balances is non-negative, so the zero test is the only guard needed |
| Utils.AvalancheOrderSpec | src/lib/utils.js:50-52 | The simulated loans are a permutation of the Active loans with balance > 0, every such loan is present, rates descend, and loans of equal rate keep the caller's order (stable sort) |
| Utils.PayPrincipalTotal | src/lib/utils.js:95-101 | The principal pass lowers the total balance by exactly max(0, min(remaining, total)) |
| Utils.PayPrincipalFalls | src/lib/utils.js:95-101 | The principal pass keeps every balance non-negative and never raises one |
| Utils.PayPrincipalAvalanche | src/lib/utils.js:95-101 | If a loan's balance fell in the pass, every loan before it in the order is at 0 |
| Utils.PayPrincipalNothing | src/lib/utils.js:96 | With nothing left after interest (remaining <= 0), no balance changes |
| Utils.StepBalances | src/lib/utils.js:74-105 | In every simulated month the payment is at most total balance plus interest, balances stay non-negative and never rise, and the total falls by exactly max(0, payment - interest): unpaid interest is never added to a balance |
| Utils.StepShortfall | src/lib/utils.js:81-96 | A payment below the month's interest leaves every balance unchanged and records a negative principal |
| Utils.StepAvalanche | src/lib/utils.js:95-101 | Within a month, a loan receives principal only when every loan before it is paid to 0 |
| Utils.RunSteps | src/lib/utils.js:69-105 | Every month of the run is a well-formed step: interest as accrued, payment = min(monthlyPayment, total + interest), principal applied in order |
| Utils.RunLinks | src/lib/utils.js:66-104 | Each month starts from the previous month's balances, and the cumulative interest and principal add that month's figures |
| Utils.RunStops | src/lib/utils.js:69-133 | The run is empty exactly when nothing is owed (total <= 0.01) or the month limit is passed; every month but the last ends owing more than 0.01; a run that ends before the limit ends with the balance paid off |
| Utils.RunBalancesFall | src/lib/utils.js:85-101 | Across the whole run, from non-negative balances, every month keeps balances non-negative and never raises one |
| Utils.RunNumbered | src/lib/utils.js:69-118 | The months of a run are numbered consecutively from its first month |
| Utils.RunTotalsFall | src/lib/utils.js:105 | The total balance after each month is at most the one after the month before |
| Utils.AmortizationMonths | src/lib/utils.js:43-71 | The schedule is empty if and only if there are no loans, the payment is <= 0 or nothing eligible is owed; it has at most 360 rows, numbered 1, 2, 3, ... |
| Utils.AmortizationRow | src/lib/utils.js:117-131 | Each row is the rounded record of the corresponding simulated month, with percentages measured against the starting total, which is above 0.01 |
| Utils.AmortizationFigures | src/lib/utils.js:117-125 | A row's total balance is the cent-rounded total owed after its month, and its cumulative interest the rounded running sum |
| Utils.AmortizationBalanceFalls | src/lib/utils.js:105-123 | The schedule's total balance never rises from one row to the next |
| Utils.AmortizationPayoff | src/lib/utils.js:71-133 | Every row but the last shows a balance of at least 0.01, and a schedule shorter than 360 rows ends with a balance of at most 0.01 |
| Utils.AmortizationInterestGrows | src/lib/utils.js:77-124 | With non-negative rates the cumulative interest never decreases from row to row |
| Utils.ScenarioSummarySpec | src/lib/utils.js:140-150 | An empty schedule gives months 0, total interest 0 and total paid 0; otherwise months is the schedule length (at most 360), the total interest is the last row's cumulative interest and the total paid is that plus the last row's cumulative principal |
| Utils.SumClamped | src/lib/utils.js:70-71 | The loop sums max(0, balance) over the loans |
| Utils.AccrueInterest | src/lib/utils.js:74-79 | The loop's total interest is the sum of balance * rate / 12 over the loans with a positive balance |
| Utils.DebitInterest | src/lib/utils.js:85-92 | After the interest loop, remaining is the payment less that month's interest |
| Utils.PayDown | src/lib/utils.js:95-101 | The in-place principal loop leaves the array equal to the principal pass applied to the old balances |
| Utils.BalancesByType | src/lib/utils.js:107-109 | The three per-type totals are the sums of max(0, balance) over the loans of each type |
| Utils.CountRemaining | src/lib/utils.js:111 | The count is the number of loans with balance > 0.01 |
| Utils.SumAll | src/lib/utils.js:63 | The starting total is the sum of the loaded balances |
| Utils.LoadLoans | src/lib/utils.js:54-62 | Balances, rates (divided by 100) and types are loaded in avalanche order into a fresh array |
| Utils.PayMonth | src/lib/utils.js:73-101 | One month in place: the new balances, the interest and the actual payment are those of the specified month step |
| Utils.MonthRecord | src/lib/utils.js:103-131 | The emitted row is the rounded record of the month's figures and new balances, and the new total is the clamped sum |
| Utils.SimulateMonth | src/lib/utils.js:70-131 | One loop iteration: balances, cumulative totals and the emitted row match the specified step |
| Utils.MonthLoop | src/lib/utils.js:65-136 | The month loop, with both breaks, emits exactly the rows of the specified run |
| Utils.ComputeAmortization | src/lib/utils.js:42-137 | The imperative simulator returns exactly the specified schedule, including the empty result for no loans or a non-positive payment |
| Advisor.LoanDataSpec | src/app/advisor/page.js:27-38 | The advisor's lines are exactly the loans with a positive balance, each with monthly interest = balance * rate / 100 / 12, sorted by rate descending, equal rates keeping their order |
| Advisor.OwingLinesSpec | src/app/advisor/page.js:28-36 | Every line owes something and carries its monthly interest, and every owing loan has a line |
| Advisor.CoverAllPays | src/app/advisor/page.js:76-81 | Covering all interest adds exactly the total interest due to the payments and leaves interest due unchanged |
| Advisor.ShareAllPays | src/app/advisor/page.js:83-90 | Each line's interest due becomes interestDue/totalInterest * remaining and is added to its payment; the shares sum to the summed interest due scaled the same way, and the payments grow by exactly that sum |
| Advisor.InterestCovered | src/app/advisor/page.js:75-81 | When the amount covers the total interest, each line keeps its interest due and its payment grows by exactly that interest, the interest total is unchanged, and remaining = amount - total interest |
| Advisor.InterestShortfall | src/app/advisor/page.js:83-95 | When the amount falls short of the total interest, the shares sum to the amount, remaining is 0, the principal pass changes nothing and no principal is paid |
| Advisor.InterestPhasePays | src/app/advisor/page.js:72-90 | The interest pass moves money from remaining to the lines without creating or losing any |
| Advisor.PrincipalPhasePays | src/app/advisor/page.js:94-103 | The principal pass moves money from remaining to the lines without creating or losing any |
| Advisor.PrincipalPhaseBalances | src/app/advisor/page.js:96-100 | After the principal pass each line's new balance is its balance less its principal, and the principal lies between 0 and the balance |
| Advisor.PrincipalPhaseAvalanche | src/app/advisor/page.js:94-103 | A line receives principal only if every line before it is at new balance 0 and paid off |
| Advisor.PrincipalPhaseLeftover | src/app/advisor/page.js:94-103 | A positive leftover means every line is paid off, and the leftover is what remained less all balances |
| Advisor.AllocationConserves | src/app/advisor/page.js:72-103 | Before rounding, the payments to all lines plus what remains equal the amount, and each line's payment is its interest plus its principal |
| Advisor.AllocationShortfall | src/app/advisor/page.js:75-95 | For the whole engine: short of the total interest, shares sum to the amount, nothing remains and no line gets principal; otherwise all interest is paid |
| Advisor.InterestPhaseKeepsBalances | src/app/advisor/page.js:60-90 | The interest pass leaves every line's balance as loaded, with no principal yet and remaining >= 0 |
| Advisor.AllocationBalances | src/app/advisor/page.js:60-103 | For positive balances, each line's new balance is its balance less its principal, with the principal between 0 and the balance; a line without principal keeps its balance and is not paid off, and a line with principal is paid off if and only if its new balance is below 0.01 |
| Advisor.AllocationLine | src/app/advisor/page.js:75-103 | Each line after both passes: payment = interest + principal; with principal, paid off if and only if the new balance is below 0.01; an owing line without principal keeps its balance and is not paid off |
| Advisor.PrincipalPhaseLine | src/app/advisor/page.js:93-103 | From records whose payment is their interest and that are untouched, each record of the principal pass pays interest + principal, is paid off exactly when below 0.01 once it receives principal, and is unchanged if it owes and receives none |
| Advisor.InterestPhaseReady | src/app/advisor/page.js:60-90 | After the interest pass every line's payment is its interest due, with no principal, its balance as loaded and not paid off |
| Advisor.AllocationAvalanche | src/app/advisor/page.js:94-103 | In the engine's result, a line receives principal only if every higher-rate line was paid to 0 |
| Advisor.AllocationLeftover | src/app/advisor/page.js:94-117 | A positive leftover implies every loan is paid off, and it equals amount - total interest - total balance |
| Advisor.SummarizeReports | src/app/advisor/page.js:106-126 | The reported lines are the cent-rounded lines whose rounded payment exceeds 0.005, none is lost, and the leftover is the rounded remainder |
| Advisor.AllocateReports | src/app/advisor/page.js:55-126 | The result is absent if and only if the amount is <= 0 or no loan owes anything; otherwise it reports the rounded lines paying more than half a cent and the rounded leftover |
| Advisor.CoverInterest | src/app/advisor/page.js:75-81 | The in-place loop turns the array into the covered lines and returns the total interest it debits |
| Advisor.ShareInterest | src/app/advisor/page.js:83-89 | The in-place loop turns the array into the proportional shares |
| Advisor.PayPrincipal | src/app/advisor/page.js:94-103 | The in-place loop with its break leaves the array and the remainder as the principal pass specifies |
| Advisor.RoundAll | src/app/advisor/page.js:105-111 | Every line's four money fields are rounded to cents independently, in place |
| Advisor.ComputeAllocation | src/app/advisor/page.js:55-127 | The imperative engine returns exactly the specified allocation, absent for a non-positive amount or no owing loans |
| CsvImport.CsvSplitFields | src/app/import/page.js:60-72 | The splitter returns one more field than there are commas outside quotes, so never an empty list, and no field contains a quote character |
| CsvImport.CsvSplitNoQuotes | src/app/import/page.js:64-71 | On a line without quotes the splitter is a plain split at every comma |
| CsvImport.CsvFieldsJoin | src/app/import/page.js:64-71 | For a line without quotes, joining the fields with commas gives back the line |
| CsvImport.DoubledQuoteDropped | src/app/import/page.js:66 | A doubled quote inside a quoted field toggles quoting twice and yields no literal quote |
| CsvImport.ParseCsvLine | src/app/import/page.js:60-72 | The character loop, with its quote flag, returns exactly the specified fields |
| CsvImport.ParseMoneySpec | src/app/import/page.js:74-79 | An empty string reads as 0; a blank string, one made only of $, quotes and commas, or one that cleans to "Unavailable" reads as null; otherwise a number that parses is returned as parsed and text that does not parse reads as 0 |
| CsvImport.RowOfSpec | src/app/import/page.js:16-54 | A line yields a row if and only if it has at least 8 fields and a non-blank date and loan name. The loan id is the name up to its first space. The type is Grad PLUS, Unsubsidized or Subsidized by what the name contains. The amounts are non-negative |
| CsvImport.IsoDateRewrites | src/app/import/page.js:39-40 | A date M/D/Y becomes Y-MM-DD with month and day padded to two digits |
| CsvImport.IsoDateKeeps | src/app/import/page.js:39-40 | A date without exactly three slash-separated parts is kept as it is |
| CsvImport.RowsOfSpec | src/app/import/page.js:15-55 | The rows are at most as many as the lines, each comes from a line, and every line that yields a row is represented |
| CsvImport.AidvantageRowsSpec | src/app/import/page.js:10-15 | Fewer than two non-blank lines give no rows; otherwise the header is skipped, so there are at most lines - 1 rows, each from a data line |
| CsvImport.CollectRows | src/app/import/page.js:14-57 | The row loop collects exactly the specified rows |
| CsvImport.ParseAidvantageCsv | src/app/import/page.js:8-58 | The whole parse (doctype stripped, trimmed, blank lines dropped, header skipped) returns exactly the specified rows |
| CsvImport.PaymentKeyParts | src/app/import/page.js:128-130 | The fingerprint splits back at its bars into date, loan id and the amount to two decimals |
| CsvImport.PaymentKeyInjective | src/app/import/page.js:128-130 | Two fingerprints are equal if and only if date, loan id and two-decimal amount are equal |
| CsvImport.FirstBalancesSpec | src/app/import/page.js:142-149 | Each loan's current balance and type are those of its first row in the import |
| CsvImport.FirstBalancesDomain | src/app/import/page.js:142-149 | A loan has a current balance if and only if some row names it |
| CsvImport.FillCurrentBalances | src/app/import/page.js:142-149 | The forEach fills the maps with each loan's first row, using the corrected first-row test (see Findings) |
| CsvImport.PaidOffBalanceOverwritten | src/app/import/page.js:145 | As written, a first row with balance 0 is overwritten by a later, older row |
| CsvImport.PaidOffLoanCountedActive | src/app/import/page.js:142-186 | As written, the paid-off loan of that import counts as one active loan owing 500; with the first-row test it counts as paid off with nothing owed |
| CsvImport.DbBalancesSpec | src/app/import/page.js:152-153 | A loan has a database balance if and only if the database lists it, and the last listing wins |
| CsvImport.DbBalanceMap | src/app/import/page.js:152-153 | The forEach builds exactly the specified map |
| CsvImport.BalanceChangesSpec | src/app/import/page.js:156-165 | A change is reported for a loan if and only if it is new to the database or differs from it by more than 0.005; the change carries the old balance (none when new), the new balance and the type |
| CsvImport.ComputeBalanceChanges | src/app/import/page.js:156-165 | The loop pushes exactly the specified changes, in first-seen order |
| CsvImport.NewPaymentsSound | src/app/import/page.js:168-179 | Every new payment comes from a PAYMENT row with a positive total whose fingerprint is not in the database |
| CsvImport.NewPaymentsComplete | src/app/import/page.js:168-179 | Every PAYMENT row with a positive total whose fingerprint is not in the database becomes a new payment |
| CsvImport.LoanCountsSpec | src/app/import/page.js:184-186 | Active plus paid-off loans are at most all loans; the active total is non-negative, and positive if and only if some loan is active |
| CsvImport.AnalyzeImportSpec | src/app/import/page.js:133-201 | The analysis is absent if and only if the import is empty. Otherwise: 0 <= already imported <= payments in the import <= transactions; every imported loan has a current balance; a loan gets a change if and only if it differs from the database |
| CsvImport.ComputeAnalysis | src/app/import/page.js:133-201 | The imperative analysis, with the corrected first-row test, returns exactly the specified one |
| AmortizationPage.MonthlyPaymentDefault | src/app/amortization/page.js:35-44 | With no budget and no expenses the payment is the default minimum 1200 |
| AmortizationPage.MonthlyPaymentZeroIsMissing | src/app/amortization/page.js:36-42 | A setting of 0 is treated as a missing setting |
| AmortizationPage.MonthlyPaymentExpense | src/app/amortization/page.js:40-43 | Each extra expense lowers the payment by the expense times the extra share |
| AmortizationPage.MonthlyPaymentFromSalary | src/app/amortization/page.js:36-43 | From a salary alone the payment is 1200 + salary * 0.75 / 12 * 0.5 (default tax 25%, extra share 50%) |
| AmortizationPage.BucketsSpec | src/app/amortization/page.js:53-61 | A month has a bucket if and only if some payment falls in it (and it is among the keys), and its bucket holds the totals of that month's payments |
| AmortizationPage.ActualHistoryMonths | src/app/amortization/page.js:48-65 | The history is empty if and only if there are no payments; otherwise it has one row per distinct month, months strictly ascending, every payment's month among them |
| AmortizationPage.ActualHistoryRow | src/app/amortization/page.js:63-80 | Row i is month i + 1, dated on the first of its month, with that month's rounded totals and the rounded running sums up to it |
| AmortizationPage.HistoryRowBalance | src/app/amortization/page.js:75-78 | History rows are actual and show total borrowed minus cumulative principal |
| AmortizationPage.HistoryBalanceFalls | src/app/amortization/page.js:68-75 | With non-negative principal, the history's balance never rises |
| AmortizationPage.RunningTotals | src/app/amortization/page.js:64-68 | Each month's running totals are the previous ones plus that month's interest and principal |
| AmortizationPage.GroupByMonth | src/app/amortization/page.js:53-61 | The forEach builds exactly the specified buckets and key order |
| AmortizationPage.HistoryLoop | src/app/amortization/page.js:63-80 | The loop with its running totals pushes exactly the specified rows |
| AmortizationPage.ComputeActualHistory | src/app/amortization/page.js:47-82 | The imperative history returns exactly the specified rows |
| AmortizationPage.ProjectionFilterRedundant | src/app/amortization/page.js:85-88 | Feeding only the Active owing loans to the simulator gives the same schedule as feeding them all |
| AmortizationPage.CombinedSpec | src/app/amortization/page.js:91-106 | The combined schedule is the history followed by the projection: lengths add, history rows stay actual and projected rows are not, and projected months and running totals are offset by the history's length and last totals |
| AmortizationPage.CombinedNumbering | src/app/amortization/page.js:91-106 | The combined schedule has at most history + 360 rows, numbered 1, 2, 3, ... |
| AmortizationPage.CombinedMonths | src/app/amortization/page.js:95-99 | Two consecutively numbered parts join into one consecutively numbered schedule |
| AmortizationPage.ChartSampleSpec | src/app/amortization/page.js:109-111 | The chart keeps every even index, the first and the last row, in order, and has the matching length |
| MockDb.MatchesAllEvery | src/lib/supabase.js:90-92 | A row passes the filters if and only if it passes every one of them |
| MockDb.EqComparesText | src/lib/supabase.js:62-65 | Equality compares the text forms: a number matches its text, a missing field matches "undefined", and null does not match the empty string |
| MockDb.WhereSpec | src/lib/supabase.js:88-92 | The selected rows are exactly the table rows passing every filter, one per matching row |
| MockDb.WhereStep | src/lib/supabase.js:90-92 | Filtering again by one more filter is filtering by the longer list |
| MockDb.WhereAll | src/lib/supabase.js:90-92 | Filtering returns the table unchanged if and only if every row matches |
| MockDb.OrderedSpec | src/lib/supabase.js:94-103 | Ordering is a permutation, sorted ascending or descending by the field, with equal keys kept in table order |
| MockDb.OrderIgnoresCase | src/lib/supabase.js:96-98 | Strings that differ only in case compare equal when ordering |
| MockDb.LimitSpec | src/lib/supabase.js:104 | A positive limit keeps the first n rows, an absent or zero limit keeps all, and a negative limit drops rows from the end |
| MockDb.SelectReadOnly | src/lib/supabase.js:85-106 | A select never changes the tables and always succeeds, with no rows from an unknown table |
| MockDb.SelectSpec | src/lib/supabase.js:87-106 | Every row a select returns is a table row passing every filter, and without order and limit it returns exactly the filtered rows |
| MockDb.InsertSpec | src/lib/supabase.js:45-116 | An insert appends the new rows after all existing ones, in order, leaving existing rows and other tables untouched, and returns the new rows |
| MockDb.NewRowSpec | src/lib/supabase.js:109-113 | A new row keeps its fields, gains a generated id when it has none, and gets the creation time |
| MockDb.UpdateSpec | src/lib/supabase.js:118-129 | An update keeps the row count and order, merges the changes into exactly the matching rows, leaves other rows and tables unchanged, and counts the matches (all rows without filters) |
| MockDb.DeleteSpec | src/lib/supabase.js:131-135 | A delete removes exactly the matching rows, keeping the order of the rest and other tables, and counts the removed rows (all rows without filters) |
| MockDb.RemoveCount | src/lib/supabase.js:132-134 | The count a delete returns is the number of rows before less the number after |
| MockDb.WhereRemovePartition | src/lib/supabase.js:133 | The deleted rows and the kept rows together are exactly the table |
| MockDb.UnknownTable | src/lib/supabase.js:108-135 | Insert, update and delete on a table that does not exist fail and change nothing |
| MockDb.SelectRows | src/lib/supabase.js:87-106 | The select loop over the filters, the sort and the slice return exactly the specified rows |
| MockDb.UpdateRows | src/lib/supabase.js:118-128 | The update map returns exactly the specified rows and the number of matched rows |
| MockDb.Database.constructor | src/lib/supabase.js:9-14 | The database starts as the four seed tables |
| MockDb.Database.Reset | src/lib/supabase.js:17-24 | Resetting restores every table to its seed contents |
| MockDb.QueryBuilder.constructor | src/lib/supabase.js:27-37 | A new builder records a select of all columns, unfiltered, unordered, ascending, unlimited |
| MockDb.QueryBuilder.SelectColumns | src/lib/supabase.js:39-43 | select records the operation and the columns and nothing else |
| MockDb.QueryBuilder.Eq | src/lib/supabase.js:62-65 | eq appends one filter and changes nothing else |
| MockDb.QueryBuilder.Order | src/lib/supabase.js:67-71 | order records the field, and descending only when ascending is false |
| MockDb.QueryBuilder.Limit | src/lib/supabase.js:73-76 | limit records the limit and nothing else |
| MockDb.QueryBuilder.UpdateWith | src/lib/supabase.js:51-55 | update records the operation with its changes |
| MockDb.QueryBuilder.DeleteRows | src/lib/supabase.js:57-60 | delete records the operation |
| MockDb.QueryBuilder.InsertRows | src/lib/supabase.js:45-49 | insert records the rows and executes at once, with the result and tables of the specified insert |
| MockDb.QueryBuilder.InsertRow | src/lib/supabase.js:45-49 | insert given a single object records it as a one-row insert and executes at once, with the result and tables of that insert |
| MockDb.QueryBuilder.Execute | src/lib/supabase.js:83-138 | Executing returns the specified result and leaves the tables as the specified operation does |
| StableSort.SortSorted | src/lib/utils.js:52 | For a comparator that is a strict weak order, the sort's output is sorted |
| StableSort.SortStable | src/lib/utils.js:52 | Elements tied under the comparator keep their original relative order |
| Text.JoinSplit | src/app/import/page.js:31-39 | Splitting at a character and joining back gives the original string |
| Text.TrimSlice | src/app/import/page.js:11-20 | Trimming removes exactly the leading and trailing white space and leaves a slice of the string |
| Text.StripDoctypeNoTag | src/app/import/page.js:10 | Text without a `<` holds no doctype and is returned unchanged |
| Money.Round2Monotone | src/lib/utils.js:120-130 | Cent rounding preserves order |
| Money.Round2AboveHalfCent | src/app/advisor/page.js:109-120 | A rounded payment exceeds 0.005 if and only if the unrounded one is at least 0.005 |

## Left out

- **Dates and clocks.**
  - The simulator's start date and each row's `date` (src/lib/utils.js:45-47, 114-115, 119) are not modelled; a row is identified by its month number. The summary's `payoffDate` is left out with it.
  - The days since the last payment (src/app/advisor/page.js:45-52) are not modelled.
  - The history's month key is the `YYYY-MM` prefix of the ISO payment date; `Date` parsing is not modelled.
- **Floating point.** All arithmetic is exact; IEEE-754 rounding of sums and products is not modelled. Cent rounding is exact half-up rounding.
- **Formatting.** `fmtCurrency`, `fmtCurrencyExact`, `fmtPct` and `fmtDate` (src/lib/utils.js:2-31) are left out, being locale formatting.
- **`toFixed(2)` and `parseFloat`.**
  - `Text.Fixed2` is half-up rounding to two decimals written as digits; IEEE-754 tie cases are not modelled.
  - `parseFloat` is a parameter of the importer.
  - `String(number)` is a parameter of the table's `eq`.
- **Text input to the advisor.** `Number(paymentAmount) || 0` (src/app/advisor/page.js:56) is taken as already parsed: the engine receives a real amount, and text that is not a number arrives as 0.
- **Display totals.** The advisor's total balance, total monthly and daily interest (src/app/advisor/page.js:40-42) and its minimum-payment comparison are left out, being UI figures. The same holds for the import screen's `totalPaidCSV` and `totalCurrentBalance`, beyond what `AnalyzeImportSpec` states.
- **I/O and persistence.**
  - File reading and drag-and-drop (src/app/import/page.js:103-125).
  - The sync and payment-logging writes.
  - Data loading, and the promise plumbing of the demo client (`then`, src/lib/supabase.js:79-81).
- **Id generation and time in `insert`.** These are parameters (`genId`, `now`), so the row ids and `created_at` are not random here.
- **JSON cloning** (src/lib/supabase.js:6) is not modelled: rows are immutable values, so a select returns fresh copies by construction.
- **JavaScript object key order.** The import's current balances are listed in first-seen order. JavaScript lists integer-like keys first; loan ids such as "1-17" are not integer-like.
- **Loosely typed comparisons.** `MockDb.OrderedSpec` assumes every row's sort field has one kind (all strings, all numbers or all missing). Comparing mixed kinds with `<` is JavaScript coercion, which is not modelled.
- **`select` columns** are recorded but not applied, as in the source: rows are returned whole.
- **Lower-casing** covers ASCII letters only.
- **Duplicate loan ids** in the simulator's input are assumed absent; the dictionaries keyed by id are modelled as arrays in avalanche order.
- AnalyzeImport: uses the corrected first-row test of `FirstBalances`, not the falsy test at src/app/import/page.js:145; `AnalyzeImportAsWritten` is the analysis as written, and Findings gives the input where the two differ.
- ComputeAnalysis: computes `AnalyzeImport`, the corrected analysis, not the analysis as written.
- FillCurrentBalances: fills the maps with the corrected first-row test; `FirstBalancesAsWritten` is the loop as written.
- **The UI.** The pages' rendering, the components and the other screens are not part of this model.

## Findings

| source | as written | input that shows it | evidently intended | confidence | as-written member | corrected member |
|---|---|---|---|---|---|---|
| src/app/import/page.js:145 | `if (!currentBalances[row.loanId])` is a falsy test, so a loan whose current balance is 0 counts as not yet seen | rows for loan "1-01" with balances 0 (most recent) then 500 (older): the balance becomes 500, so the paid-off loan is counted active and compared with the wrong balance | each loan keeps the balance of its first (most recent) row, as the comment at line 141 says. Line 52 turns a missing ("Unavailable") balance into 0, so the falsy test also skips such rows; under the correction a loan whose first row is unavailable counts as paid off | not executed | CsvImport.PaidOffLoanCountedActive | CsvImport.FirstBalancesSpec |
