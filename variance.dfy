/**
 * The budget-vs-actual table of `show_variance`: one row per budgeted
 * category, in the dictionary's iteration order, with its limit, the amount
 * spent in it and the variance `limit - spent`.
 */
module Variance {
  import opened Options
  import opened BudgetMap
  import opened Spending

  /** One printed line of the table: category, budget, spent, variance. */
  datatype Row = Row(category: string, limit: int, spent: int, variance: int)

  /** The table for budgets b over expenses e. */
  function VarianceRows(b: Budgets, e: seq<Expense>): (rows: seq<Row>)
    ensures |rows| == |b|
  {
    if b == [] then []
    else
      var spent := Spent(e, b[0].0);
      [Row(b[0].0, b[0].1, spent, b[0].1 - spent)] + VarianceRows(b[1..], e)
  }

  /** Rows follow the budgets' order: row i is about the i-th budget entry, its
      spent is the sum of that category's expenses and its variance is the
      limit minus that sum. */
  lemma {:induction false} VarianceRowAt(b: Budgets, e: seq<Expense>, i: nat)
    requires i < |b|
    ensures VarianceRows(b, e)[i].category == b[i].0
    ensures VarianceRows(b, e)[i].limit == b[i].1
    ensures VarianceRows(b, e)[i].spent == Spent(e, b[i].0)
    ensures VarianceRows(b, e)[i].variance == b[i].1 - Spent(e, b[i].0)
  {
    if i > 0 {
      VarianceRowAt(b[1..], e, i - 1);
    }
  }

  /** The first row of category c, if any. */
  function RowOf(rows: seq<Row>, c: string): Option<Row>
  {
    if rows == [] then None
    else if rows[0].category == c then Some(rows[0])
    else RowOf(rows[1..], c)
  }

  /** How many rows are about category c. */
  function CountRows(rows: seq<Row>, c: string): nat
  {
    if rows == [] then 0
    else (if rows[0].category == c then 1 else 0) + CountRows(rows[1..], c)
  }

  /** A category has a row exactly when it has a budget, and then exactly one,
      holding its limit, its spent and limit minus spent (spent is 0 for a
      category without expenses, see SpentNoMatch). */
  lemma {:induction false} VarianceRowsByCategory(b: Budgets, e: seq<Expense>, c: string)
    requires DistinctKeys(b)
    ensures CountRows(VarianceRows(b, e), c) == if Lookup(b, c).Some? then 1 else 0
    ensures Lookup(b, c).None? ==> RowOf(VarianceRows(b, e), c).None?
    ensures Lookup(b, c).Some? ==>
      var limit := Lookup(b, c).value;
      RowOf(VarianceRows(b, e), c) == Some(Row(c, limit, Spent(e, c), limit - Spent(e, c)))
  {
    if b != [] {
      VarianceRowsByCategory(b[1..], e, c);
      if b[0].0 == c {
        LookupIffKey(b[1..], c);
      }
    }
  }

  /** With non-negative expense amounts no category is more than its limit
      under budget, and the variance is the limit minus a non-negative spend. */
  lemma {:induction false} VarianceAtMostLimit(b: Budgets, e: seq<Expense>, i: nat)
    requires AmountsNonNegative(e)
    requires i < |b|
    ensures 0 <= VarianceRows(b, e)[i].spent
    ensures VarianceRows(b, e)[i].variance <= VarianceRows(b, e)[i].limit
  {
    VarianceRowAt(b, e, i);
    SpentBounds(e, b[i].0);
  }
}
