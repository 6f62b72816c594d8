# Budget dashboard: the data pipeline in Dafny

This project models the computational core of a personal budget dashboard
(`main.py`, a Streamlit page fed from a Google Sheets workbook). The page
itself is left out; what remains is four pure computations over a list of
transaction rows:

1. **Ledger loading** (`Ledger`). The sheets named `January`, `February` and
   `March` are read in that order and concatenated, and no row is dropped.
   The `Date` column is parsed, and the whole load fails if a date does not
   parse. Every row is then labelled with the English name of its own date's
   month. A row filed on one sheet but dated in another month gets the label
   of its date.
2. **Liquid balances** (`LiquidBalances`).
   - Cash and Debit are the sums of the amounts paid by that method, plus
     fixed opening offsets of $229.00 and $5,597.14.
   - Savings is the negated sum of every `Savings`-category amount, whatever
     its method.
   - Total is the sum of the three.
3. **Spending breakdown** (`SpendingBreakdown`). For the selected month, keep
   the rows with a strictly negative amount whose category is not `Savings`.
   Group them by category, take the absolute value of each category's sum,
   and order the totals from largest to smallest.
4. **Month selection** (`MonthSelector`, `Dashboard`). The available months
   are the distinct labels in order of first appearance. A new session
   selects the first of them, or nothing when there are none. A month button
   only works for an available month. The spending section then shows one of
   three things: a "no months" warning, a "no spending" warning, or the
   breakdown.

Amounts are integer cents, so the offsets are 22900 and 559714. Dates are
`(year, month, day)` triples. A triple that is not a Gregorian calendar day
stands for a date cell the parser rejects. Each sheet is an input sequence
of records (the map `sheets`). The session's stored selection and the button
clicked in this run are inputs to `Select` and `Run`.

Every computation has a partner definition, and lemmas connect the two:

- The filter-and-sum balances of `calculate_liquid_balances` equal a row-by-row replay
  (`CalculateIsReplay`).
- The group-and-sort breakdown satisfies a declarative description
  (`IsBreakdownOf`). That description fixes the result up to the order of
  equal totals (`BreakdownDeterminedUpToTies`).
- `Unique` is characterised by distinctness, membership and first-occurrence
  order.
- `Filter` keeps each satisfying element exactly as often as it occurs.
  `FilterAppend` shows that the kept elements stay in their original order.
- `Concat` keeps every record of every table and takes none from
  elsewhere. `ConcatLength` shows that it adds and drops none.
  `ConcatOne` and `ConcatAppend` together fix the result on every input:
  the records of each table, in order, one table after another.
- `Run` states that every section of the page comes from the one loaded
  ledger: its balances, its available months, the selection made from them,
  and the spending section for that selection. Each section thus carries
  the partner of the member that computes it.

Three details of `main.py` shape the model:

- The opening offsets are the literals 229 and 5597.14 at main.py:151-152.
- Cash and Debit sum every row not paid by Credit, whatever its category.
  A debit-paid `Savings` transfer therefore lowers Debit as well as raising
  Savings (`CalculateAppendRow`).
- pandas fixes no order among equal breakdown totals, so the model's
  contract leaves tie order open.

## Model

| member | source | states |
|---|---|---|
| `Seqs.Filter` | main.py:148 | a boolean mask keeps exactly the rows that satisfy it, each as often as it occurs, and nothing else |
| `Seqs.FilterAppend` | main.py:148 | masking two tables one after the other is masking their concatenation, so kept rows stay in their original order |
| `Seqs.Unique` | main.py:295 | `unique()` returns each value once, exactly the values present, in order of first appearance |
| `Calendar.DaysInMonth` | main.py:134 | the Gregorian month lengths: February has 29 days in a leap year and 28 otherwise, April, June, September and November have 30, and the rest 31 |
| `Calendar.MonthNameRoundTrip` | main.py:211-215 | the `%B` label of a month is one of the twelve button names, is never empty, and names that month back |
| `Ledger.ReadSheets` | main.py:130 | reading succeeds exactly when every named sheet exists; it then returns those sheets in order, and otherwise reports the first missing one |
| `Ledger.FirstUnparseable` | main.py:134 | finds the first date that does not parse, or reports that all dates parse |
| `Ledger.Concat` | main.py:131 | concatenation keeps a copy of every record of every table and adds no record from elsewhere |
| `Ledger.ConcatOne` | main.py:131 | a single table concatenated is that table, record for record |
| `Ledger.ConcatLength` | main.py:131 | the concatenation has exactly as many records as the tables together, so none is added or dropped |
| `Ledger.ConcatAppend` | main.py:131 | concatenating two runs of tables is concatenating their concatenations, so records keep the order of their tables |
| `Ledger.Label` | main.py:137 | labelling keeps every record and gives each the month name of its own date |
| `Ledger.Load` | main.py:124-139 | the load fails exactly when a configured sheet is missing or a date does not parse; on success the ledger is the configured sheets' records in order, each with its date-derived label |
| `Ledger.LoadConcatenatesInOrder` | main.py:127-131 | a loaded ledger is the January, February and March sheets concatenated in that order, so its length is the sum of theirs |
| `Ledger.LabelComesFromDate` | main.py:137 | a record on the February sheet dated in January is labelled "January" |
| `LiquidBalances.Calculate` | main.py:156-161 | Total is exactly Cash + Debit + Savings |
| `LiquidBalances.SavingsAppendRow` | main.py:144-145 | the savings sum grows by a row's amount exactly when its category is "Savings", whatever its method |
| `LiquidBalances.MethodAppendRow` | main.py:148-152 | the Credit-free per-method sum grows by a row's amount exactly when the row is paid by that method |
| `LiquidBalances.CalculateAppendRow` | main.py:144-152 | one more row moves Cash by its amount only if paid in cash, Debit only if paid by debit (a Savings transfer included), and Savings by minus its amount only if its category is "Savings" (Credit included) |
| `LiquidBalances.CalculateIsReplay` | main.py:141-163 | the filter-and-sum balances equal the row-by-row replay from the opening offsets on every ledger |
| `LiquidBalances.EmptyLedgerBalances` | main.py:151-153 | with no rows, Cash and Debit are exactly their offsets and Savings is zero |
| `LiquidBalances.NoCashRowsCashIsOffset` | main.py:148-151 | when no row is paid in cash, Cash is exactly its $229.00 offset, whatever the other rows are |
| `LiquidBalances.NoDebitRowsDebitIsOffset` | main.py:148-152 | when no row is paid by debit, Debit is exactly its $5,597.14 offset, whatever the other rows are |
| `LiquidBalances.OtherRowsChangeNothing` | main.py:148-152 | a row that is paid neither in cash nor by debit (Credit, for one) and is not in the "Savings" category changes no balance |
| `LiquidBalances.ReplayIgnoresMonthLabels` | main.py:141-163 | the row-by-row reference reads only the records, so relabelled rows replay to the same balances |
| `LiquidBalances.BalancesIgnoreMonthLabels` | main.py:141-163 | balances depend only on the records; a different month label on any row changes nothing |
| `LiquidBalances.CalculateConcat` | main.py:144-153 | the balances of two tables concatenated add each table's own movements |
| `LiquidBalances.ConcatOrderIrrelevant` | main.py:141-163 | the order in which sheets are concatenated does not change any balance |
| `SpendingBreakdown.SpentIn` | main.py:306-309 | a category's spending in a month is never negative |
| `SpendingBreakdown.Insert` | main.py:309 | inserting into a descending sequence keeps it descending and adds exactly that line |
| `SpendingBreakdown.SortDescending` | main.py:309 | sorting gives a non-increasing permutation of the grouped lines |
| `SpendingBreakdown.InsertKeepsCategoriesDistinct` | main.py:309 | inserting a line of a new category keeps every category once |
| `SpendingBreakdown.SortKeepsCategoriesDistinct` | main.py:309 | sorting keeps every category once |
| `SpendingBreakdown.SpendRows` | main.py:303-308 | the month-and-sign mask keeps exactly the rows of that month with a negative amount outside "Savings", each as often as in the ledger |
| `SpendingBreakdown.InCategorySumIsSpent` | main.py:306-309 | a group's summed amount is minus the category's spending in the month |
| `SpendingBreakdown.SpentInPositive` | main.py:307-309 | a category with any spending row in the month has strictly positive spending |
| `SpendingBreakdown.UniqueCategoriesOfRows` | main.py:309 | the distinct category values of some rows are exactly their categories |
| `SpendingBreakdown.GroupSums` | main.py:309 | grouping reports each category of the rows once and no other, each with the absolute value of that category's summed amounts |
| `SpendingBreakdown.GroupSumsCategories` | main.py:306-309 | the groups are exactly the categories with spending in the month |
| `SpendingBreakdown.GroupSumsValues` | main.py:306-309 | each group's absolute sum is its category's spending, which is positive |
| `SpendingBreakdown.SortedGroupSumsIsBreakdown` | main.py:303-309 | the sorted groups satisfy the declarative description of a breakdown |
| `SpendingBreakdown.Breakdown` | main.py:303-309 | the breakdown is sorted from largest to smallest, lists each category at most once, lists exactly the non-Savings categories with a negative amount in the month, and gives each its spending, which is positive |
| `SpendingBreakdown.BreakdownLinesPositive` | main.py:306-309 | every line of a breakdown has a positive total and a category other than "Savings" |
| `SpendingBreakdown.SpendRowsAppend` | main.py:303-308 | the month's spending rows of two tables are each table's spending rows, in order |
| `SpendingBreakdown.SpendRowsOfOther` | main.py:303-308 | a row from another month, with an amount of zero or more, or in "Savings" is not a spending row |
| `SpendingBreakdown.NonSpendRowIgnored` | main.py:306-309 | inserting such a row anywhere leaves the month's breakdown unchanged |
| `SpendingBreakdown.SpendRowReported` | main.py:306-309 | the category of every spending row of the month appears in its breakdown |
| `SpendingBreakdown.NonSpendRowRemoved` | main.py:303-308 | deleting a row that is not spending in the month leaves its breakdown unchanged |
| `SpendingBreakdown.BreakdownDeterminedUpToTies` | main.py:309 | two breakdowns of one month have the same lines, one per spending category; they can differ only in the order of equal totals |
| `MonthSelector.AvailableMonths` | main.py:295 | the available months are distinct and are exactly the labels present, in first-appearance order; there are none only for an empty ledger, and after loading each is a month name |
| `MonthSelector.DefaultSelection` | main.py:235 | a new session selects the first available month, or nothing when there is none |
| `MonthSelector.InitialSelection` | main.py:234-235 | a selection kept in the session is used as it is; only a new session takes the default |
| `MonthSelector.Press` | main.py:238-249 | a click changes the selection only to the clicked month, and only when it is a month name with data; a click on such a month always selects it |
| `MonthSelector.Select` | main.py:233-251 | a new session ends with an available month, or with nothing only when no month has data; with no click a kept selection survives even without data |
| `Dashboard.SpendingSection` | main.py:301-338 | the "no months" warning is shown exactly when nothing is selected; the "no spending" warning exactly when the month has no spending category; otherwise a non-empty breakdown |
| `Dashboard.Run` | main.py:6-22 | a run fails exactly when loading fails; otherwise the page shows the loaded ledger's balances, its available months, the selection made from them and the stored selection and click, and the spending section for that selection; Total adds up, and in a new session the "no months" warning appears exactly for an empty ledger and any selection is an available month name |
| `Dashboard.EmptySheetsScenario` | main.py:6-22 | with three empty sheets the balances are the offsets and zero, no month is available, nothing is selected, and the "no months" warning shows |
| `Dashboard.GroceriesAndSavingsBalances` | main.py:141-163 | a $50 debit grocery purchase and a $300 debit savings transfer give Debit 5247.14, Savings 300.00, Cash 229.00 and Total 5776.14 |
| `Dashboard.GroceriesAndSavingsBreakdown` | main.py:303-309 | in that ledger January's breakdown is Groceries 50.00 alone |
| `Dashboard.MisfiledPurchaseCountsInItsDateMonth` | main.py:137 | a purchase on the February sheet dated in January appears in January's breakdown |
| `Dashboard.MisfiledPurchaseLeavesSheetMonth` | main.py:137 | a row on the February sheet dated in January plays no part in February's breakdown: deleting it leaves that breakdown unchanged |

## Left out

- Page rendering: page configuration, CSS, the HTML balance cards, columns, the
  pie chart, the breakdown table, the warnings' wording and the data
  preview (main.py:24-122, 165-206, 253-288, 312-352). These are presentation only.
- The `${:,.2f}` currency formatting (main.py:183, 325). It is display-only.
- The Google Sheets connection and `conn.read` (main.py:11, 130). The sheets
  are an input map. Skipping the banner row and picking the first six columns
  happen inside that read.
- The "Refresh Data" button, cache clearing and rerun (main.py:32-34). This
  is framework runtime behaviour.
- Date text parsing by `pd.to_datetime`. Dates arrive as triples, and an
  impossible day stands for an unparseable cell. pandas' timestamp year
  range (1677 to 2262) is not modelled. Blank date cells are not modelled
  either: pandas turns them into NaT instead of failing.
- Empty cells in Amount, Category or Method. pandas skips NaN amounts in
  sums and drops NaN categories from `groupby`. The model gives every row
  all six values.
- Floating-point arithmetic. Amounts are exact integer cents, so sums never
  round.
- `SpendingBreakdown.SortDescending`: the implementation is an insertion
  sort, which keeps first-seen order among equal totals. pandas groups
  category names in sorted order and then sorts with an unstable quicksort.
  So the contract, like `IsBreakdownOf`, promises only non-increasing order
  and leaves tie order open.
- Several button clicks in one run. Streamlit delivers at most one click per
  run, so `pressed` is a single optional month.
