/**
 * Expense records and the amount spent per category: the generator sum
 * `sum(item['amount'] for item in expenses if item['category'] == category)`
 * that both the variance table and the exported report compute.
 */
module Spending {

  /** One `{"amount", "category"}` record of the `expenses` list. */
  datatype Expense = Expense(amount: int, category: string)

  /** The amounts of the expenses in category c, summed front to back. */
  function Spent(e: seq<Expense>, c: string): int
  {
    if e == [] then 0
    else (if e[0].category == c then e[0].amount else 0) + Spent(e[1..], c)
  }

  /** Every amount recorded is non-negative (what the menu's guard ensures). */
  predicate AmountsNonNegative(e: seq<Expense>)
  {
    forall k :: 0 <= k < |e| ==> e[k].amount >= 0
  }

  /** Appending an expense raises its own category's total by its amount and
      leaves every other category's total as it was. */
  lemma {:induction false} SpentAppend(e: seq<Expense>, x: Expense, c: string)
    ensures Spent(e + [x], c) == Spent(e, c) + (if x.category == c then x.amount else 0)
  {
    if e != [] {
      assert (e + [x])[1..] == e[1..] + [x];
      SpentAppend(e[1..], x, c);
    }
  }

  /** A category with no expenses has spent 0. */
  lemma {:induction false} SpentNoMatch(e: seq<Expense>, c: string)
    requires forall k :: 0 <= k < |e| ==> e[k].category != c
    ensures Spent(e, c) == 0
  {
    if e != [] {
      SpentNoMatch(e[1..], c);
    }
  }

  /** With non-negative amounts the total of a category is non-negative and
      no larger than the total of all expenses. */
  lemma {:induction false} SpentBounds(e: seq<Expense>, c: string)
    requires AmountsNonNegative(e)
    ensures 0 <= Spent(e, c) <= Total(e)
  {
    if e != [] {
      assert AmountsNonNegative(e[1..]) by {
        forall k | 0 <= k < |e| - 1 ensures e[1..][k].amount >= 0 {
          assert e[1..][k] == e[k + 1];
        }
      }
      SpentBounds(e[1..], c);
    }
  }

  /** The sum of all recorded expense amounts. */
  function Total(e: seq<Expense>): int
  {
    if e == [] then 0 else e[0].amount + Total(e[1..])
  }
}
