/**
 * The filter-and-reduce idioms the pages apply to the transaction list:
 * `filter(t => t.type === ...)` and `reduce((sum, t) => sum + t.amount, 0)`.
 * Each is defined on the last element, so that it follows a left-to-right scan.
 */
module Ledger {
  import opened Types

  /** No amount is negative. */
  ghost predicate NonNegative(ts: seq<Transaction>) {
    forall i :: 0 <= i < |ts| ==> ts[i].amount >= 0.0
  }

  /** The sum of the amounts, accumulated from the left starting at 0. */
  function Sum(ts: seq<Transaction>): (r: real)
    ensures |ts| == 0 ==> r == 0.0
    ensures NonNegative(ts) ==> r >= 0.0
  {
    if |ts| == 0 then 0.0 else Sum(ts[..|ts| - 1]) + ts[|ts| - 1].amount
  }

  /** The transactions of type `kind`, in their original order. */
  function OfType(ts: seq<Transaction>, kind: TransactionType): (r: seq<Transaction>)
    ensures |r| <= |ts|
    ensures forall i :: 0 <= i < |r| ==> r[i].kind == kind
    ensures NonNegative(ts) ==> NonNegative(r)
  {
    if |ts| == 0 then []
    else OfType(ts[..|ts| - 1], kind) + (if ts[|ts| - 1].kind == kind then [ts[|ts| - 1]] else [])
  }

  /** The Expense transactions of category `category`, in their original order. */
  function ExpensesIn(ts: seq<Transaction>, category: string): (r: seq<Transaction>)
    ensures |r| <= |ts|
    ensures forall i :: 0 <= i < |r| ==> r[i].kind == Expense && r[i].category == category
    ensures NonNegative(ts) ==> NonNegative(r)
  {
    if |ts| == 0 then []
    else
      var t := ts[|ts| - 1];
      ExpensesIn(ts[..|ts| - 1], category) + (if t.kind == Expense && t.category == category then [t] else [])
  }

  lemma {:induction false} SumConcat(a: seq<Transaction>, b: seq<Transaction>)
    ensures Sum(a + b) == Sum(a) + Sum(b)
  {
    if |b| > 0 {
      var b' := b[..|b| - 1];
      assert (a + b)[..|a + b| - 1] == a + b';
      SumConcat(a, b');
    } else {
      assert a + b == a;
    }
  }

  lemma {:induction false} OfTypeConcat(a: seq<Transaction>, b: seq<Transaction>, kind: TransactionType)
    ensures OfType(a + b, kind) == OfType(a, kind) + OfType(b, kind)
  {
    if |b| > 0 {
      var b' := b[..|b| - 1];
      assert (a + b)[..|a + b| - 1] == a + b';
      OfTypeConcat(a, b', kind);
    } else {
      assert a + b == a;
    }
  }

  lemma {:induction false} ExpensesInConcat(a: seq<Transaction>, b: seq<Transaction>, category: string)
    ensures ExpensesIn(a + b, category) == ExpensesIn(a, category) + ExpensesIn(b, category)
  {
    if |b| > 0 {
      var b' := b[..|b| - 1];
      assert (a + b)[..|a + b| - 1] == a + b';
      ExpensesInConcat(a, b', category);
    } else {
      assert a + b == a;
    }
  }

  /** A new transaction adds its amount to the sub-total of its own type only. */
  lemma SumOfTypeAppend(ts: seq<Transaction>, t: Transaction, kind: TransactionType)
    ensures Sum(OfType(ts + [t], kind)) == Sum(OfType(ts, kind)) + (if t.kind == kind then t.amount else 0.0)
  {
    assert (ts + [t])[..|ts|] == ts;
    SumConcat(OfType(ts, kind), if t.kind == kind then [t] else []);
  }

  /** `OfType` keeps exactly the transactions of the given type, each as often as it occurs. */
  lemma {:induction false} OfTypeCounts(ts: seq<Transaction>, kind: TransactionType)
    ensures forall t :: multiset(OfType(ts, kind))[t] == if t.kind == kind then multiset(ts)[t] else 0
  {
    if |ts| > 0 {
      var p := ts[..|ts| - 1];
      OfTypeCounts(p, kind);
      assert ts == p + [ts[|ts| - 1]];
    }
  }

  /** Every transaction is either Income or Expense, so the two sub-totals make up the whole. */
  lemma {:induction false} TypesPartitionSum(ts: seq<Transaction>)
    ensures Sum(OfType(ts, Income)) + Sum(OfType(ts, Expense)) == Sum(ts)
  {
    if |ts| > 0 {
      var p := ts[..|ts| - 1];
      var t := ts[|ts| - 1];
      TypesPartitionSum(p);
      SumConcat(OfType(p, Income), if t.kind == Income then [t] else []);
      SumConcat(OfType(p, Expense), if t.kind == Expense then [t] else []);
    }
  }
}
