/**
 * The planner's `budgets` dictionary, from category to limit.
 *
 * A Python dict iterates its keys in insertion order, and assigning to a key
 * that is already present replaces the value without moving the key. The
 * dictionary is therefore modelled as an association list whose keys are
 * distinct and whose order is the insertion order.
 */
module BudgetMap {
  import opened Options

  /** Category -> limit pairs, in the order the categories were first set. */
  type Budgets = seq<(string, int)>

  /** The categories in iteration order (`for category in budgets`). */
  function Keys(b: Budgets): (ks: seq<string>)
    ensures |ks| == |b|
  {
    if b == [] then [] else [b[0].0] + Keys(b[1..])
  }

  /** No category occurs twice: a dict holds one value per key. */
  predicate DistinctKeys(b: Budgets)
  {
    b == [] || (b[0].0 !in Keys(b[1..]) && DistinctKeys(b[1..]))
  }

  /** `budgets[category]`, or None when the category has no budget. */
  function Lookup(b: Budgets, c: string): Option<int>
  {
    if b == [] then None
    else if b[0].0 == c then Some(b[0].1)
    else Lookup(b[1..], c)
  }

  /** `budgets[category] = limit`: overwrite in place, or add at the end. */
  function Put(b: Budgets, c: string, v: int): Budgets
  {
    if b == [] then [(c, v)]
    else if b[0].0 == c then [(c, v)] + b[1..]
    else [b[0]] + Put(b[1..], c, v)
  }

  /** A category has a limit exactly when it is one of the keys. */
  lemma {:induction false} LookupIffKey(b: Budgets, c: string)
    ensures Lookup(b, c).Some? <==> c in Keys(b)
  {
    if b != [] {
      LookupIffKey(b[1..], c);
    }
  }

  /** The entry at position i is what a lookup of its category finds. */
  lemma {:induction false} LookupAt(b: Budgets, i: nat)
    requires DistinctKeys(b)
    requires i < |b|
    ensures Lookup(b, b[i].0) == Some(b[i].1)
  {
    if i > 0 {
      LookupAt(b[1..], i - 1);
      KeyAt(b[1..], i - 1);
      assert b[0].0 != b[i].0;
    }
  }

  /** The i-th key is the category of the i-th entry. */
  lemma {:induction false} KeyAt(b: Budgets, i: nat)
    requires i < |b|
    ensures Keys(b)[i] == b[i].0
  {
    if i > 0 {
      KeyAt(b[1..], i - 1);
    }
  }

  /** After the assignment, the category maps to the new limit and every other
      category keeps the limit it had (or still has none). */
  lemma {:induction false} PutLookup(b: Budgets, c: string, v: int, d: string)
    ensures Lookup(Put(b, c, v), d) == if d == c then Some(v) else Lookup(b, d)
  {
    if b != [] && b[0].0 != c {
      PutLookup(b[1..], c, v, d);
    }
  }

  /** The assignment keeps the key order; a key is appended only when the
      category was new. */
  lemma {:induction false} PutKeys(b: Budgets, c: string, v: int)
    ensures Keys(Put(b, c, v)) == if c in Keys(b) then Keys(b) else Keys(b) + [c]
  {
    if b == [] {
    } else if b[0].0 == c {
      assert Put(b, c, v)[1..] == b[1..];
    } else {
      PutKeys(b[1..], c, v);
      assert Put(b, c, v)[1..] == Put(b[1..], c, v);
      assert c in Keys(b) <==> c in Keys(b[1..]);
      if c !in Keys(b[1..]) {
        assert Keys(b) + [c] == [b[0].0] + (Keys(b[1..]) + [c]);
      }
    }
  }

  /** The assignment never duplicates a key. */
  lemma {:induction false} PutPreservesDistinct(b: Budgets, c: string, v: int)
    requires DistinctKeys(b)
    ensures DistinctKeys(Put(b, c, v))
  {
    if b == [] {
    } else if b[0].0 == c {
      assert Put(b, c, v)[1..] == b[1..];
    } else {
      PutPreservesDistinct(b[1..], c, v);
      PutKeys(b[1..], c, v);
      assert Put(b, c, v)[1..] == Put(b[1..], c, v);
    }
  }

  /** Setting the same category twice keeps only the second limit. */
  lemma {:induction false} PutLastWriteWins(b: Budgets, c: string, v: int, w: int)
    ensures Put(Put(b, c, v), c, w) == Put(b, c, w)
  {
    if b != [] && b[0].0 != c {
      PutLastWriteWins(b[1..], c, v, w);
      assert Put(b, c, v)[1..] == Put(b[1..], c, v);
    }
  }

  /** Setting the same (category, limit) twice is the same as setting it once. */
  lemma {:induction false} PutIdempotent(b: Budgets, c: string, v: int)
    ensures Put(Put(b, c, v), c, v) == Put(b, c, v)
  {
    PutLastWriteWins(b, c, v, v);
  }
}
