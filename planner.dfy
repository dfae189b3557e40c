/**
 * The budget planner's ledger: the module-level `income`, `expenses` and
 * `budgets` collections as the fields of one object, the menu operations
 * that change them (with the validation the menu applies) and the two
 * readers, the variance table and the exported report.
 */
module Planner {
  import opened Options
  import opened BudgetMap
  import opened Spending
  import opened Variance
  import opened Report

  /** What menu option 4 shows: a message when no budget is set, else the table. */
  datatype VarianceView = NoBudgetsYet | Table(rows: seq<Row>)

  class Ledger {
    var income: seq<int>
    var expenses: seq<Expense>
    var budgets: Budgets

    /** What the validated menu paths keep true of the collections. */
    ghost predicate Valid()
      reads this
    {
      && (forall k :: 0 <= k < |income| ==> income[k] >= 0)
      && AmountsNonNegative(expenses)
      && (forall k :: 0 <= k < |expenses| ==> expenses[k].category != "")
      && DistinctKeys(budgets)
      && (forall c :: Lookup(budgets, c).Some? ==> Lookup(budgets, c).value > 0)
    }

    /** `income=[]`, `expenses=[]`, `budgets={}`. */
    constructor ()
      ensures Valid()
      ensures income == [] && expenses == [] && budgets == []
    {
      income, expenses, budgets := [], [], [];
    }

    /** Menu option 1: a non-negative amount is appended to `income`; a
        negative one is rejected and nothing changes. */
    method AddIncome(amount: int) returns (accepted: bool)
      requires Valid()
      modifies this
      ensures Valid()
      ensures accepted <==> amount >= 0
      ensures income == if accepted then old(income) + [amount] else old(income)
      ensures expenses == old(expenses) && budgets == old(budgets)
    {
      accepted := amount >= 0;
      if accepted {
        income := income + [amount];
      }
    }

    /** Menu option 2: an expense with a non-negative amount and a non-empty
        category is appended to `expenses`; anything else is rejected and
        nothing changes. Only the category's spent moves, by the amount. */
    method AddExpense(amount: int, category: string) returns (accepted: bool)
      requires Valid()
      modifies this
      ensures Valid()
      ensures accepted <==> amount >= 0 && category != ""
      ensures expenses == if accepted then old(expenses) + [Expense(amount, category)] else old(expenses)
      ensures forall c :: Spent(expenses, c)
                       == Spent(old(expenses), c) + (if accepted && c == category then amount else 0)
      ensures income == old(income) && budgets == old(budgets)
    {
      accepted := amount >= 0 && category != "";
      if accepted {
        var x := Expense(amount, category);
        forall c {
          SpentAppend(expenses, x, c);
        }
        expenses := expenses + [x];
      }
    }

    /** `set_budget`: a positive limit is stored for the category (replacing an
        earlier one in place, or adding the category at the end); a limit of
        0 or less is rejected and nothing changes. */
    method SetBudget(category: string, limit: int) returns (accepted: bool)
      requires Valid()
      modifies this
      ensures Valid()
      ensures accepted <==> limit > 0
      ensures budgets == if accepted then Put(old(budgets), category, limit) else old(budgets)
      ensures accepted ==> Lookup(budgets, category) == Some(limit)
      ensures forall c :: c != category ==> Lookup(budgets, c) == Lookup(old(budgets), c)
      ensures Keys(budgets) == if accepted && category !in Keys(old(budgets))
                               then Keys(old(budgets)) + [category]
                               else Keys(old(budgets))
      ensures income == old(income) && expenses == old(expenses)
    {
      accepted := limit > 0;
      if accepted {
        forall c {
          PutLookup(budgets, category, limit, c);
        }
        PutPreservesDistinct(budgets, category, limit);
        PutKeys(budgets, category, limit);
        budgets := Put(budgets, category, limit);
      }
    }

    /** `show_variance`: one row per budgeted category, in insertion order;
        the row of a category holds the limit `budgets[category]` reads. */
    method ShowVariance() returns (rows: seq<Row>)
      requires Valid()
      ensures rows == VarianceRows(budgets, expenses)
      ensures forall c :: CountRows(rows, c) == if Lookup(budgets, c).Some? then 1 else 0
      ensures forall c :: Lookup(budgets, c).Some? ==>
        RowOf(rows, c) == Some(Row(c, Lookup(budgets, c).value, Spent(expenses, c),
                                   Lookup(budgets, c).value - Spent(expenses, c)))
    {
      rows := [];
      var k := 0;
      while k < |budgets|
        invariant 0 <= k <= |budgets|
        invariant |rows| == k
        invariant forall j :: 0 <= j < k ==>
          rows[j] == Row(budgets[j].0, budgets[j].1, Spent(expenses, budgets[j].0),
                         budgets[j].1 - Spent(expenses, budgets[j].0))
      {
        var category := budgets[k].0;
        var limit := budgets[k].1;
        var spent := Spent(expenses, category);
        rows := rows + [Row(category, limit, spent, limit - spent)];
        k := k + 1;
      }
      forall j | 0 <= j < |rows|
        ensures rows[j] == VarianceRows(budgets, expenses)[j]
      {
        VarianceRowAt(budgets, expenses, j);
      }
      forall c {
        VarianceRowsByCategory(budgets, expenses, c);
      }
    }

    /** Menu option 4: the table, or a message when no budget is set. */
    method MenuShowVariance() returns (view: VarianceView)
      requires Valid()
      ensures budgets == [] <==> view == NoBudgetsYet
      ensures budgets != [] ==> view == Table(VarianceRows(budgets, expenses))
    {
      if budgets == [] {
        view := NoBudgetsYet;
      } else {
        var rows := ShowVariance();
        view := Table(rows);
      }
    }

    /** `export_report`: the pieces written to the report, in order. Reading
        only, it leaves the ledger as it was. Each budget line shows the
        category's own limit (see ReportChunksAsWritten for the line the
        source writes). */
    method ExportReport() returns (chunks: seq<Chunk>)
      ensures chunks == ReportChunks(income, expenses, budgets)
    {
      chunks := [Title, IncomeHeading];
      var k := 0;
      while k < |income|
        invariant 0 <= k <= |income|
        invariant chunks == [Title, IncomeHeading] + IncomeChunks(income[..k])
      {
        IncomeChunksSnoc(income[..k], income[k]);
        assert income[..k + 1] == income[..k] + [income[k]];
        chunks := chunks + [IncomeAmount(income[k])];
        k := k + 1;
      }
      assert income[..k] == income;
      chunks := chunks + [ExpensesHeading];
      var head := chunks;
      k := 0;
      while k < |expenses|
        invariant 0 <= k <= |expenses|
        invariant chunks == head + ExpenseChunks(expenses[..k])
      {
        ExpenseChunksSnoc(expenses[..k], expenses[k]);
        assert expenses[..k + 1] == expenses[..k] + [expenses[k]];
        chunks := chunks + [ExpenseLine(expenses[k].amount, expenses[k].category)];
        k := k + 1;
      }
      assert expenses[..k] == expenses;
      chunks := chunks + [BudgetHeading];
      assert chunks == Entries(income, expenses);
      head := chunks;
      k := 0;
      while k < |budgets|
        invariant 0 <= k <= |budgets|
        invariant chunks == head + BudgetChunks(budgets[..k], expenses)
      {
        var category := budgets[k].0;
        var spent := Spent(expenses, category);
        BudgetChunksSnoc(budgets[..k], budgets[k], expenses);
        assert budgets[..k + 1] == budgets[..k] + [budgets[k]];
        chunks := chunks + [BudgetLine(category, Limit(budgets[k].1), spent)];
        k := k + 1;
      }
      assert budgets[..k] == budgets;
    }
  }

  lemma {:induction false} IncomeChunksSnoc(income: seq<int>, x: int)
    ensures IncomeChunks(income + [x]) == IncomeChunks(income) + [IncomeAmount(x)]
  {
    if income != [] {
      assert (income + [x])[1..] == income[1..] + [x];
      IncomeChunksSnoc(income[1..], x);
    }
  }

  lemma {:induction false} ExpenseChunksSnoc(e: seq<Expense>, x: Expense)
    ensures ExpenseChunks(e + [x]) == ExpenseChunks(e) + [ExpenseLine(x.amount, x.category)]
  {
    if e != [] {
      assert (e + [x])[1..] == e[1..] + [x];
      ExpenseChunksSnoc(e[1..], x);
    }
  }

  lemma {:induction false} BudgetChunksSnoc(b: Budgets, entry: (string, int), e: seq<Expense>)
    ensures BudgetChunks(b + [entry], e) == BudgetChunks(b, e) + [BudgetLine(entry.0, Limit(entry.1), Spent(e, entry.0))]
  {
    if b != [] {
      assert (b + [entry])[1..] == b[1..] + [entry];
      BudgetChunksSnoc(b[1..], entry, e);
    }
  }

  /** The two worked examples: income 1000, expenses 200 and 50 in Food and a
      Food budget of 300 give the single row (Food, 300, 250, 50); an expense
      of -5 is rejected and leaves no expense recorded. */
  method Scenarios()
  {
    var ledger := new Ledger();
    var ok := ledger.AddIncome(1000);
    ok := ledger.AddExpense(200, "Food");
    ok := ledger.AddExpense(50, "Food");
    ok := ledger.SetBudget("Food", 300);
    var rows := ledger.ShowVariance();
    assert rows == [Row("Food", 300, 250, 50)];

    var other := new Ledger();
    ok := other.AddExpense(-5, "Food");
    assert !ok && |other.expenses| == 0;
  }
}
