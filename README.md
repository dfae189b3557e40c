# Budget planner ledger, in Dafny

A model of the console budget planner in `Budget_Planner.py`: an in-memory
ledger of income amounts, expenses tagged with a category and a budget limit
per category, the budget-vs-actual variance table, and the monthly report
export. The three module-level collections become the fields of one
`Ledger` object; the menu's validation guards become part of the operations
that change them.

Modules:

- `BudgetMap` — the `budgets` dict as an association list in insertion order
  (`Keys`, `Lookup`, `Put`), with the assignment's properties: the category
  gets the new limit, no other limit changes, the key order is kept, a key
  is added only when new, never duplicated, last write wins, idempotence.
- `Spending` — the expense record and `Spent`, the per-category generator
  sum, with its additivity under appending and its bounds.
- `Variance` — the variance rows of `show_variance`: order, one row per
  budgeted category, spent and variance per row.
- `Report` — the sequence of writes `export_report` makes, a reader for that
  sequence and the round trip that shows the section order and that every
  entry is written once; also the budget line as the source writes it (see
  Findings). The round trip is about the writes, not the file text: the
  writes carry no line breaks or separators (see Left out).
- `Planner` — the `Ledger` class: `AddIncome`, `AddExpense`, `SetBudget`
  (each returns whether the input was accepted), `ShowVariance`,
  `MenuShowVariance`, `ExportReport`, and a client method whose assertions
  prove the two worked examples (income 1000, Food expenses 200 and 50, Food budget 300
  gives the single row Food/300/250/50; an expense of -5 is rejected).

## Model

| member | source | states |
|---|---|---|
| `Planner.Ledger.constructor` | Budget_Planner.py:11-13 | the ledger starts with no income, no expenses and no budgets |
| `Planner.Ledger.AddIncome` | Budget_Planner.py:98-102 | accepted exactly when amount >= 0; then exactly that amount is appended to income, otherwise income is unchanged; expenses and budgets never change; the ledger invariant is kept |
| `Planner.Ledger.AddExpense` | Budget_Planner.py:105-110 | accepted exactly when amount >= 0 and the category is non-empty; then (amount, category) is the new last expense with earlier ones unchanged, otherwise nothing changes; every category's spent moves by the amount for the expense's category and by 0 for all others |
| `Planner.Ledger.SetBudget` | Budget_Planner.py:41-48 | accepted exactly when limit > 0; then the category maps to the limit, every other category keeps its limit, the key order is kept and the category is appended only if new; a limit <= 0 changes nothing; income and expenses never change |
| `Planner.Ledger.ShowVariance` | Budget_Planner.py:57-61 | the loop builds exactly the variance rows of the current budgets and expenses; each budgeted category has exactly one row, holding the limit `budgets[category]` reads, its spent and limit - spent, and other categories have none |
| `Planner.Ledger.MenuShowVariance` | Budget_Planner.py:115-119 | with no budgets the menu shows the "no budgets" message, otherwise the variance table |
| `Planner.Ledger.ExportReport` | Budget_Planner.py:65-80 | the writes produce exactly the report of the current ledger (with each budget line showing the category's own limit); the method changes nothing |
| `BudgetMap.PutLookup` | Budget_Planner.py:45 | after the assignment the category maps to the new limit and every other category's lookup is what it was |
| `BudgetMap.PutKeys` | Budget_Planner.py:45 | the assignment keeps the keys and their order when the category exists, and otherwise adds it at the end |
| `BudgetMap.PutPreservesDistinct` | Budget_Planner.py:45 | the assignment never duplicates a category |
| `BudgetMap.PutLastWriteWins` | Budget_Planner.py:45 | setting a category twice leaves the budgets as setting it once to the second limit |
| `BudgetMap.PutIdempotent` | Budget_Planner.py:45 | setting the same (category, limit) twice gives the same budgets as setting it once |
| `BudgetMap.LookupIffKey` | Budget_Planner.py:57-58 | a category has a limit exactly when it is one of the iterated keys |
| `BudgetMap.LookupAt` | Budget_Planner.py:57-58 | with distinct keys, the limit read for the i-th iterated category is the i-th entry's limit |
| `Spending.SpentAppend` | Budget_Planner.py:59 | appending an expense raises its category's spent by its amount and leaves every other category's spent unchanged |
| `Spending.SpentNoMatch` | Budget_Planner.py:59 | a category with no matching expense has spent 0 |
| `Spending.SpentBounds` | Budget_Planner.py:59 | with non-negative amounts a category's spent lies between 0 and the total of all expenses |
| `Variance.VarianceRows` | Budget_Planner.py:57-60 | one row per budget entry |
| `Variance.VarianceRowAt` | Budget_Planner.py:57-60 | row i is about the i-th budgeted category in insertion order, with its limit, spent = sum of that category's expense amounts and variance = limit - spent |
| `Variance.VarianceRowsByCategory` | Budget_Planner.py:57-60 | a category has exactly one row if it has a budget and none otherwise; its row holds its limit, its spent and limit - spent |
| `Variance.VarianceAtMostLimit` | Budget_Planner.py:59-60 | with non-negative expense amounts every row's spent is >= 0 and its variance is at most its limit |
| `Report.ReportRoundTrip` | Budget_Planner.py:66-80 | the sequence of writes, read back, gives the title, then every income amount once in recorded order, then every (amount, category) expense once in order, then one line per budgeted category in order with its limit and spent |
| `Report.BudgetLinesAt` | Budget_Planner.py:77-80 | line k of the budget section is about the k-th category with its spent; as written it shows the whole budgets dict, as intended the category's limit |
| `Report.AsWrittenShowsWholeMap` | Budget_Planner.py:76-80 | the report as written agrees with the intended one before the budget section, and in it each line shows the whole dict instead of the category's limit |
| `Report.FoodLineShowsRent` | Budget_Planner.py:80 | with budgets Food=300 and Rent=1000, the Food line as written carries Rent's limit and differs from the intended line |

## Left out

- Console I/O: every `input()` and `print()`, the menu loop and its dispatch on the choice, and the messages printed on rejection; the operations return whether the input was accepted instead.
- `int(input(...))` parsing and the exception it raises on non-numeric text: amounts arrive as integers.
- The file open and write in `export_report` (and a failing write): the report is the sequence of pieces written, not a file.
- Line breaks: `export_report` writes every piece with no newline or separator, so `report.txt` is one run-on line in which neighbouring amounts merge (income 1, 23 and income 12, 3 give the same text) and the file cannot be split back into its entries; `Report.ReportRoundTrip` holds of the sequence of writes only.
- Text layout: column widths, the `Rs` suffix of the variance table, Python's printed form of the dict; a report piece is a datatype value, not text.
- `fun1` has the same `amount >= 0` guard as menu option 1, so `Planner.Ledger.AddIncome` covers it; `fun2` appends an expense without any check, but nothing calls it, so it is not modelled.
- `Project.py` (database storage, dataframes, plotting, the clock, floating-point calorie and BMI arithmetic) is not part of this model.
- `Planner.Ledger.ExportReport` writes each budget line with the category's own limit, not the whole dict the source writes; the source's line is modelled by `Report.ReportChunksAsWritten` (see Findings).

## Findings

| source | as written | input that shows it | evidently intended | confidence | as-written member | corrected member |
|---|---|---|---|---|---|---|
| Budget_Planner.py:80 | each budget-vs-actual line writes `Budget={budgets}`, the whole dict, and `budget_limit` computed at line 78 is never used | budgets Food=300 and Rent=1000: the Food line also shows Rent's 1000 (`Report.FoodLineShowsRent`) | `Budget={budget_limit}`, the category's own limit | high; not executed | `Report.ReportChunksAsWritten` | `Report.ReportChunks` |
