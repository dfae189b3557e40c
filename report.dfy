/**
 * The monthly report of `export_report`, as the sequence of pieces it writes
 * to the file: the title, the income section, the expenses section and the
 * budget-vs-actual section. Exact text (spacing, the dict's printed form) is
 * not modelled; each write is one Chunk.
 */
module Report {
  import opened Options
  import opened BudgetMap
  import opened Spending

  /** What a budget-vs-actual line shows as the category's budget. */
  datatype Shown =
    | Limit(limit: int)          // the category's own limit
    | WholeMap(entries: Budgets) // the whole budgets dictionary

  /** One `file.write(...)` of the report. */
  datatype Chunk =
    | Title                                              // "=== Monthly Budget Report ==="
    | IncomeHeading                                      // "Income: "
    | IncomeAmount(amount: int)                          // one income amount
    | ExpensesHeading                                    // "Expenses:"
    | ExpenseLine(amount: int, category: string)         // "amount (category)"
    | BudgetHeading                                      // "Budget vs Actual:"
    | BudgetLine(category: string, budget: Shown, spent: int)

  function IncomeChunks(income: seq<int>): (cs: seq<Chunk>)
    ensures |cs| == |income|
  {
    if income == [] then [] else [IncomeAmount(income[0])] + IncomeChunks(income[1..])
  }

  function ExpenseChunks(e: seq<Expense>): (cs: seq<Chunk>)
    ensures |cs| == |e|
  {
    if e == [] then [] else [ExpenseLine(e[0].amount, e[0].category)] + ExpenseChunks(e[1..])
  }

  /** One line per budgeted category, showing its own limit and its spent. */
  function BudgetChunks(b: Budgets, e: seq<Expense>): (cs: seq<Chunk>)
    ensures |cs| == |b|
  {
    if b == [] then []
    else [BudgetLine(b[0].0, Limit(b[0].1), Spent(e, b[0].0))] + BudgetChunks(b[1..], e)
  }

  /** The chunks before the budget-vs-actual lines. */
  function Entries(income: seq<int>, e: seq<Expense>): seq<Chunk>
  {
    [Title, IncomeHeading] + IncomeChunks(income) + [ExpensesHeading] + ExpenseChunks(e) + [BudgetHeading]
  }

  /** The report, each budget line showing the category's own limit. */
  function ReportChunks(income: seq<int>, e: seq<Expense>, b: Budgets): seq<Chunk>
  {
    Entries(income, e) + BudgetChunks(b, e)
  }

  // ---- The report as the source writes it -------------------------------

  /** Budget lines as written: each shows the whole dictionary `whole`. */
  function BudgetChunksAsWritten(b: Budgets, whole: Budgets, e: seq<Expense>): (cs: seq<Chunk>)
    ensures |cs| == |b|
  {
    if b == [] then []
    else [BudgetLine(b[0].0, WholeMap(whole), Spent(e, b[0].0))] + BudgetChunksAsWritten(b[1..], whole, e)
  }

  function ReportChunksAsWritten(income: seq<int>, e: seq<Expense>, b: Budgets): seq<Chunk>
  {
    Entries(income, e) + BudgetChunksAsWritten(b, b, e)
  }

  /** Line k of the budget section, as written and as intended. */
  lemma {:induction false} BudgetLinesAt(b: Budgets, whole: Budgets, e: seq<Expense>, k: nat)
    requires k < |b|
    ensures BudgetChunks(b, e)[k] == BudgetLine(b[k].0, Limit(b[k].1), Spent(e, b[k].0))
    ensures BudgetChunksAsWritten(b, whole, e)[k] == BudgetLine(b[k].0, WholeMap(whole), Spent(e, b[k].0))
  {
    if k > 0 {
      BudgetLinesAt(b[1..], whole, e, k - 1);
    }
  }

  /** The two reports agree up to the budget section; there, every line as
      written shows the whole dictionary where the category's limit belongs. */
  lemma AsWrittenShowsWholeMap(income: seq<int>, e: seq<Expense>, b: Budgets, k: nat)
    requires k < |b|
    ensures |ReportChunksAsWritten(income, e, b)| == |ReportChunks(income, e, b)|
    ensures ReportChunksAsWritten(income, e, b)[..|Entries(income, e)|]
         == ReportChunks(income, e, b)[..|Entries(income, e)|]
    ensures ReportChunksAsWritten(income, e, b)[|Entries(income, e)| + k]
         == BudgetLine(b[k].0, WholeMap(b), Spent(e, b[k].0))
    ensures ReportChunks(income, e, b)[|Entries(income, e)| + k]
         == BudgetLine(b[k].0, Limit(b[k].1), Spent(e, b[k].0))
  {
    BudgetLinesAt(b, b, e, k);
  }

  /** With budgets Food=300 and Rent=1000, the Food line as written shows
      Rent's limit as well, and it differs from the intended line. */
  lemma FoodLineShowsRent()
    ensures var b := [("Food", 300), ("Rent", 1000)];
      var asWritten := ReportChunksAsWritten([], [], b)[|Entries([], [])|];
      && asWritten.budget.WholeMap?
      && ("Rent", 1000) in asWritten.budget.entries
      && asWritten != ReportChunks([], [], b)[|Entries([], [])|]
  {
    AsWrittenShowsWholeMap([], [], [("Food", 300), ("Rent", 1000)], 0);
  }

  // ---- Reading a report back ---------------------------------------------

  /** What a report states: the income amounts, the expenses, and for each
      budget line (category, limit, spent). */
  datatype Contents = Contents(income: seq<int>, expenses: seq<Expense>, lines: seq<(string, int, int)>)

  function TakeIncome(cs: seq<Chunk>): (seq<int>, seq<Chunk>)
  {
    if cs != [] && cs[0].IncomeAmount? then
      var (xs, rest) := TakeIncome(cs[1..]);
      ([cs[0].amount] + xs, rest)
    else ([], cs)
  }

  function TakeExpenses(cs: seq<Chunk>): (seq<Expense>, seq<Chunk>)
  {
    if cs != [] && cs[0].ExpenseLine? then
      var (xs, rest) := TakeExpenses(cs[1..]);
      ([Expense(cs[0].amount, cs[0].category)] + xs, rest)
    else ([], cs)
  }

  function TakeBudgetLines(cs: seq<Chunk>): (seq<(string, int, int)>, seq<Chunk>)
  {
    if cs != [] && cs[0].BudgetLine? && cs[0].budget.Limit? then
      var (xs, rest) := TakeBudgetLines(cs[1..]);
      ([(cs[0].category, cs[0].budget.limit, cs[0].spent)] + xs, rest)
    else ([], cs)
  }

  /** Reads a report: title, income section, expenses section, budget section,
      in that order and nothing after. */
  function ParseReport(cs: seq<Chunk>): Option<Contents>
  {
    if |cs| < 2 || cs[0] != Title || cs[1] != IncomeHeading then None
    else
      var (income, r1) := TakeIncome(cs[2..]);
      if r1 == [] || r1[0] != ExpensesHeading then None
      else
        var (expenses, r2) := TakeExpenses(r1[1..]);
        if r2 == [] || r2[0] != BudgetHeading then None
        else
          var (lines, r3) := TakeBudgetLines(r2[1..]);
          if r3 != [] then None else Some(Contents(income, expenses, lines))
  }

  lemma {:induction false} TakeIncomeChunks(income: seq<int>, rest: seq<Chunk>)
    requires rest == [] || !rest[0].IncomeAmount?
    ensures TakeIncome(IncomeChunks(income) + rest) == (income, rest)
  {
    if income != [] {
      assert (IncomeChunks(income) + rest)[1..] == IncomeChunks(income[1..]) + rest;
      TakeIncomeChunks(income[1..], rest);
      assert [income[0]] + income[1..] == income;
    } else {
      assert IncomeChunks(income) + rest == rest;
    }
  }

  lemma {:induction false} TakeExpenseChunks(e: seq<Expense>, rest: seq<Chunk>)
    requires rest == [] || !rest[0].ExpenseLine?
    ensures TakeExpenses(ExpenseChunks(e) + rest) == (e, rest)
  {
    if e != [] {
      assert (ExpenseChunks(e) + rest)[1..] == ExpenseChunks(e[1..]) + rest;
      TakeExpenseChunks(e[1..], rest);
      assert [e[0]] + e[1..] == e;
    } else {
      assert ExpenseChunks(e) + rest == rest;
    }
  }

  lemma {:induction false} TakeBudgetChunks(b: Budgets, e: seq<Expense>)
    ensures TakeBudgetLines(BudgetChunks(b, e)).1 == []
    ensures |TakeBudgetLines(BudgetChunks(b, e)).0| == |b|
    ensures forall k :: 0 <= k < |b| ==>
      TakeBudgetLines(BudgetChunks(b, e)).0[k] == (b[k].0, b[k].1, Spent(e, b[k].0))
  {
    if b != [] {
      TakeBudgetChunks(b[1..], e);
    }
  }

  /** The report holds every income amount and every (amount, category)
      expense exactly once and in recorded order, then one line per budgeted
      category with its limit and spent, in the budgets' order; the three
      sections come in this fixed order. */
  lemma ReportRoundTrip(income: seq<int>, e: seq<Expense>, b: Budgets)
    ensures ParseReport(ReportChunks(income, e, b)).Some?
    ensures ParseReport(ReportChunks(income, e, b)).value.income == income
    ensures ParseReport(ReportChunks(income, e, b)).value.expenses == e
    ensures |ParseReport(ReportChunks(income, e, b)).value.lines| == |b|
    ensures forall k :: 0 <= k < |b| ==>
      ParseReport(ReportChunks(income, e, b)).value.lines[k] == (b[k].0, b[k].1, Spent(e, b[k].0))
  {
    var cs := ReportChunks(income, e, b);
    var tail2 := [ExpensesHeading] + ExpenseChunks(e) + [BudgetHeading] + BudgetChunks(b, e);
    assert cs[2..] == IncomeChunks(income) + tail2;
    TakeIncomeChunks(income, tail2);
    var tail3 := [BudgetHeading] + BudgetChunks(b, e);
    assert tail2[1..] == ExpenseChunks(e) + tail3;
    TakeExpenseChunks(e, tail3);
    assert tail3[1..] == BudgetChunks(b, e);
    TakeBudgetChunks(b, e);
  }
}
