/**
 * The dashboard's aggregations: revenue, expenses and profit or loss, the
 * expense breakdown by category, and the month buckets behind the
 * income-versus-expenses chart. The dictionaries the page fills in a
 * `forEach` loop are association lists in insertion order, which is the
 * order JavaScript gives to their (non-numeric) keys.
 */
module Dashboard {
  import opened Types
  import opened Ledger
  import BudgetsPage

  datatype Totals = Totals(totalRevenue: real, totalExpenses: real, profitOrLoss: real)

  /** The three summary figures. */
  function ComputeTotals(ts: seq<Transaction>): (r: Totals)
    ensures r.totalRevenue == Sum(OfType(ts, Income))
    ensures r.totalExpenses == Sum(OfType(ts, Expense))
    ensures r.profitOrLoss == r.totalRevenue - r.totalExpenses
    ensures r.totalRevenue + r.totalExpenses == Sum(ts)
    ensures |ts| == 0 ==> r == Totals(0.0, 0.0, 0.0)
  {
    TypesPartitionSum(ts);
    var totalRevenue := Sum(OfType(ts, Income));
    var totalExpenses := Sum(OfType(ts, Expense));
    Totals(totalRevenue, totalExpenses, totalRevenue - totalExpenses)
  }

  /** A new transaction moves only the total of its own type, by its amount. */
  lemma TotalsAppend(ts: seq<Transaction>, t: Transaction)
    ensures var before, after := ComputeTotals(ts), ComputeTotals(ts + [t]);
      && after.totalRevenue == before.totalRevenue + (if t.kind == Income then t.amount else 0.0)
      && after.totalExpenses == before.totalExpenses + (if t.kind == Expense then t.amount else 0.0)
  {
    SumOfTypeAppend(ts, t, Income);
    SumOfTypeAppend(ts, t, Expense);
  }

  // ---------------------------------------------------------------------
  // Expense breakdown
  // ---------------------------------------------------------------------

  /** One key of the breakdown and its accumulated amount. */
  datatype Entry = Entry(name: string, value: real)

  /** The keys of an association list, in order. */
  function Keys<E>(d: seq<E>, key: E -> string): (n: seq<string>)
    ensures |n| == |d| && forall i :: 0 <= i < |d| ==> n[i] == key(d[i])
  {
    if |d| == 0 then [] else [key(d[0])] + Keys(d[1..], key)
  }

  function EntryName(e: Entry): string { e.name }

  function Names(d: seq<Entry>): seq<string> { Keys(d, EntryName) }

  ghost predicate NoDuplicates(s: seq<string>) {
    forall i, j :: 0 <= i < j < |s| ==> s[i] != s[j]
  }

  /** A key not yet present can be appended without creating a duplicate. */
  lemma NoDuplicatesAppend(s: seq<string>, k: string)
    requires NoDuplicates(s) && k !in s
    ensures NoDuplicates(s + [k])
  {
    forall i, j | 0 <= i < j < |s| + 1 ensures (s + [k])[i] != (s + [k])[j] {
      if j == |s| { assert s[i] in s; }
    }
  }

  /** `data[k] ?? 0`: the value stored under `k`, or 0 when there is none. */
  function ValueOf(d: seq<Entry>, k: string): real {
    if |d| == 0 then 0.0 else if d[0].name == k then d[0].value else ValueOf(d[1..], k)
  }

  /** The values added up. */
  function Total(d: seq<Entry>): real {
    if |d| == 0 then 0.0 else d[0].value + Total(d[1..])
  }

  /** `data[k] = (data[k] || 0) + x`: add to the entry for `k`, or append one. */
  function AddTo(d: seq<Entry>, k: string, x: real): (r: seq<Entry>)
    ensures |d| <= |r| <= |d| + 1
  {
    if |d| == 0 then [Entry(k, x)]
    else if d[0].name == k then [Entry(k, d[0].value + x)] + d[1..]
    else [d[0]] + AddTo(d[1..], k, x)
  }

  /** Adding to `k` appends `k` if it is new and leaves the key order alone otherwise. */
  lemma {:induction false} AddToNames(d: seq<Entry>, k: string, x: real)
    ensures Names(AddTo(d, k, x)) == if k in Names(d) then Names(d) else Names(d) + [k]
  {
    if |d| > 0 && d[0].name != k {
      AddToNames(d[1..], k, x);
      assert AddTo(d, k, x)[1..] == AddTo(d[1..], k, x);
      assert Names(d) == [d[0].name] + Names(d[1..]);
    } else if |d| > 0 {
      assert AddTo(d, k, x)[1..] == d[1..];
    }
  }

  /** Adding to `k` adds `x` to the value of `k` and to no other value. */
  lemma {:induction false} AddToValues(d: seq<Entry>, k: string, x: real)
    ensures forall k' :: ValueOf(AddTo(d, k, x), k') == ValueOf(d, k') + (if k' == k then x else 0.0)
  {
    if |d| > 0 && d[0].name != k {
      AddToValues(d[1..], k, x);
      assert AddTo(d, k, x)[1..] == AddTo(d[1..], k, x);
    } else if |d| > 0 {
      assert AddTo(d, k, x)[1..] == d[1..];
    }
  }

  /** Adding to any key adds `x` to the total. */
  lemma {:induction false} AddToTotal(d: seq<Entry>, k: string, x: real)
    ensures Total(AddTo(d, k, x)) == Total(d) + x
  {
    if |d| > 0 && d[0].name != k {
      AddToTotal(d[1..], k, x);
      assert AddTo(d, k, x)[1..] == AddTo(d[1..], k, x);
    } else if |d| > 0 {
      assert AddTo(d, k, x)[1..] == d[1..];
    }
  }

  /** The breakdown of everything up to the last transaction, fed by the Expense ones. */
  function Breakdown(ts: seq<Transaction>): (r: seq<Entry>)
    ensures |r| <= |ts|
  {
    if |ts| == 0 then []
    else
      var d := Breakdown(ts[..|ts| - 1]);
      var t := ts[|ts| - 1];
      if t.kind == Expense then AddTo(d, t.category, t.amount) else d
  }

  /** True when some Expense transaction has category `k`. */
  ghost predicate HasExpenseIn(ts: seq<Transaction>, k: string) {
    exists i :: 0 <= i < |ts| && ts[i].kind == Expense && ts[i].category == k
  }

  /** Extending the list by one transaction adds at most its own category to the expense categories. */
  lemma HasExpenseInLast(ts: seq<Transaction>, k: string)
    requires |ts| > 0
    ensures HasExpenseIn(ts, k) <==>
      HasExpenseIn(ts[..|ts| - 1], k) || (ts[|ts| - 1].kind == Expense && ts[|ts| - 1].category == k)
  {
    var p := ts[..|ts| - 1];
    if HasExpenseIn(ts, k) {
      var i :| 0 <= i < |ts| && ts[i].kind == Expense && ts[i].category == k;
      if i < |p| { assert p[i] == ts[i]; }
    }
    if HasExpenseIn(p, k) {
      var i :| 0 <= i < |p| && p[i].kind == Expense && p[i].category == k;
      assert ts[i] == p[i];
    }
  }

  /** Each category of some Expense transaction is a key exactly once, and there are no other keys. */
  lemma {:induction false} BreakdownKeys(ts: seq<Transaction>)
    ensures NoDuplicates(Names(Breakdown(ts)))
    ensures forall k :: k in Names(Breakdown(ts)) <==> HasExpenseIn(ts, k)
    ensures Breakdown(ts) == [] <==> forall i :: 0 <= i < |ts| ==> ts[i].kind != Expense
  {
    if |ts| > 0 {
      var p := ts[..|ts| - 1];
      var t := ts[|ts| - 1];
      BreakdownKeys(p);
      var d := Breakdown(p);
      forall k ensures HasExpenseIn(ts, k) <==> HasExpenseIn(p, k) || (t.kind == Expense && t.category == k) {
        HasExpenseInLast(ts, k);
      }
      if t.kind == Expense {
        AddToNames(d, t.category, t.amount);
        if t.category !in Names(d) {
          NoDuplicatesAppend(Names(d), t.category);
        }
        assert t.category in Names(Breakdown(ts));
      } else {
        assert (forall i :: 0 <= i < |ts| ==> ts[i].kind != Expense) <==> (forall i :: 0 <= i < |p| ==> p[i].kind != Expense) by {
          forall i | 0 <= i < |p| ensures p[i] == ts[i] { }
        }
      }
    }
  }

  /** A category is a key exactly when some expense has it. */
  lemma BreakdownHasKey(ts: seq<Transaction>, k: string)
    ensures k in Names(Breakdown(ts)) <==> HasExpenseIn(ts, k)
  {
    BreakdownKeys(ts);
  }

  /** Each key maps to the spend in that category (and an absent key to 0). */
  lemma {:induction false} BreakdownValues(ts: seq<Transaction>)
    ensures forall k :: ValueOf(Breakdown(ts), k) == BudgetsPage.Spent(ts, k)
  {
    if |ts| > 0 {
      var p := ts[..|ts| - 1];
      var t := ts[|ts| - 1];
      BreakdownValues(p);
      assert ts == p + [t];
      if t.kind == Expense {
        AddToValues(Breakdown(p), t.category, t.amount);
      }
      forall k ensures ValueOf(Breakdown(ts), k) == BudgetsPage.Spent(ts, k) {
        BudgetsPage.SpentAppend(p, t, k);
      }
    }
  }

  /** The values together make up the total of the Expense transactions. */
  lemma {:induction false} BreakdownTotal(ts: seq<Transaction>)
    ensures Total(Breakdown(ts)) == Sum(OfType(ts, Expense))
  {
    if |ts| > 0 {
      var p := ts[..|ts| - 1];
      var t := ts[|ts| - 1];
      BreakdownTotal(p);
      SumConcat(OfType(p, Expense), if t.kind == Expense then [t] else []);
      if t.kind == Expense {
        AddToTotal(Breakdown(p), t.category, t.amount);
      }
    }
  }

  /** The index of the first Expense transaction of category `k`, or `|ts|` when there is none. */
  function FirstExpense(ts: seq<Transaction>, k: string): (p: nat)
    ensures p <= |ts|
    ensures p < |ts| ==> ts[p].kind == Expense && ts[p].category == k
  {
    if |ts| == 0 then 0
    else
      var n := |ts| - 1;
      var p := FirstExpense(ts[..n], k);
      if p < n then p
      else if ts[n].kind == Expense && ts[n].category == k then n
      else |ts|
  }

  /** No earlier transaction is an expense of `k`, and an index is found iff there is one. */
  lemma {:induction false} FirstExpenseIsFirst(ts: seq<Transaction>, k: string)
    ensures forall q :: 0 <= q < FirstExpense(ts, k) && q < |ts| ==> !(ts[q].kind == Expense && ts[q].category == k)
    ensures FirstExpense(ts, k) < |ts| <==> HasExpenseIn(ts, k)
  {
    if |ts| > 0 {
      var p := ts[..|ts| - 1];
      FirstExpenseIsFirst(p, k);
      forall q | 0 <= q < |p| ensures ts[q] == p[q] { }
      if HasExpenseIn(ts, k) {
        var i :| 0 <= i < |ts| && ts[i].kind == Expense && ts[i].category == k;
        if i < |p| { assert p[i] == ts[i]; }
      }
    }
  }

  /**
   * Every key has a first expense, and keys come in the order in which their
   * categories first occur among the expenses.
   */
  ghost predicate InFirstOccurrenceOrder(ts: seq<Transaction>) {
    var n := Names(Breakdown(ts));
    && (forall i :: 0 <= i < |n| ==> FirstExpense(ts, n[i]) < |ts|)
    && (forall i, j :: 0 <= i < j < |n| ==> FirstExpense(ts, n[i]) < FirstExpense(ts, n[j]))
  }

  /** The breakdown lists its keys by first occurrence, not sorted. */
  lemma {:induction false} BreakdownOrder(ts: seq<Transaction>)
    ensures InFirstOccurrenceOrder(ts)
  {
    if |ts| > 0 {
      BreakdownOrder(ts[..|ts| - 1]);
      BreakdownOrderStep(ts);
    }
  }

  /** The last transaction keeps the first-occurrence order of the keys before it. */
  lemma {:induction false} BreakdownOrderStep(ts: seq<Transaction>)
    requires |ts| > 0
    requires InFirstOccurrenceOrder(ts[..|ts| - 1])
    ensures InFirstOccurrenceOrder(ts)
  {
    var p := ts[..|ts| - 1];
    var t := ts[|ts| - 1];
    var np := Names(Breakdown(p));
    if t.kind == Expense {
      AddToNames(Breakdown(p), t.category, t.amount);
    }
    if t.kind == Expense && t.category !in np {
      BreakdownHasKey(p, t.category);
      FirstExpenseIsFirst(p, t.category);
      OrderWithNewKey(ts, t.category);
    } else {
      OrderWithSameKeys(ts);
    }
  }

  /** A category that is already a key keeps its first index when a transaction is appended. */
  lemma {:induction false} OrderWithSameKeys(ts: seq<Transaction>)
    requires |ts| > 0
    requires InFirstOccurrenceOrder(ts[..|ts| - 1])
    requires Names(Breakdown(ts)) == Names(Breakdown(ts[..|ts| - 1]))
    ensures InFirstOccurrenceOrder(ts)
  {
    var p := ts[..|ts| - 1];
    var n := Names(Breakdown(p));
    forall i | 0 <= i < |n| ensures FirstExpense(ts, n[i]) == FirstExpense(p, n[i]) < |p| {
      assert FirstExpense(p, n[i]) < |p|;
    }
  }

  /** A new category becomes the last key, and its first index is the last position. */
  lemma {:induction false} OrderWithNewKey(ts: seq<Transaction>, k: string)
    requires |ts| > 0
    requires InFirstOccurrenceOrder(ts[..|ts| - 1])
    requires Names(Breakdown(ts)) == Names(Breakdown(ts[..|ts| - 1])) + [k]
    requires FirstExpense(ts[..|ts| - 1], k) == |ts| - 1
    requires ts[|ts| - 1].kind == Expense && ts[|ts| - 1].category == k
    ensures InFirstOccurrenceOrder(ts)
  {
    var p := ts[..|ts| - 1];
    var np := Names(Breakdown(p));
    var n := Names(Breakdown(ts));
    forall i | 0 <= i < |np| ensures FirstExpense(ts, np[i]) == FirstExpense(p, np[i]) < |p| {
      assert FirstExpense(p, np[i]) < |p|;
    }
    assert FirstExpense(ts, k) == |p|;
    forall i | 0 <= i < |n| ensures FirstExpense(ts, n[i]) < |ts| {
      if i < |np| { assert n[i] == np[i]; }
    }
    forall i, j | 0 <= i < j < |n| ensures FirstExpense(ts, n[i]) < FirstExpense(ts, n[j]) {
      assert n[i] == np[i];
      if j < |np| { assert n[j] == np[j]; }
    }
  }

  /** `expenseByCategory`: the Expense transactions accumulated by category in a `forEach` loop. */
  method ExpenseByCategory(ts: seq<Transaction>) returns (r: seq<Entry>)
    ensures r == Breakdown(ts)
    ensures NoDuplicates(Names(r))
    ensures forall k :: k in Names(r) <==> HasExpenseIn(ts, k)
    ensures forall k :: ValueOf(r, k) == BudgetsPage.Spent(ts, k)
    ensures Total(r) == ComputeTotals(ts).totalExpenses
  {
    var data: seq<Entry> := [];
    var i := 0;
    while i < |ts|
      invariant 0 <= i <= |ts|
      invariant data == Breakdown(ts[..i])
    {
      var t := ts[i];
      assert ts[..i + 1][..i] == ts[..i];
      if t.kind == Expense {
        data := AddTo(data, t.category, t.amount);
      }
      i := i + 1;
    }
    assert ts[..|ts|] == ts;
    BreakdownKeys(ts);
    BreakdownValues(ts);
    BreakdownTotal(ts);
    r := data;
  }

  // ---------------------------------------------------------------------
  // Month buckets
  // ---------------------------------------------------------------------

  /** The income and expense accumulated for one month key. */
  datatype MonthBucket = MonthBucket(name: string, income: real, expense: real)

  /** Income goes to `income`; every other transaction goes to `expense`. */
  function Credit(b: MonthBucket, t: Transaction): (r: MonthBucket)
    ensures r.name == b.name
    ensures r.income + r.expense == b.income + b.expense + t.amount
    ensures t.kind == Income ==> r.expense == b.expense
    ensures t.kind != Income ==> r.income == b.income
  {
    if t.kind == Income then b.(income := b.income + t.amount) else b.(expense := b.expense + t.amount)
  }

  function BucketName(b: MonthBucket): string { b.name }

  function MonthNames(d: seq<MonthBucket>): seq<string> { Keys(d, BucketName) }

  /** The bucket for `k`, or an empty one when there is none. */
  function BucketOf(d: seq<MonthBucket>, k: string): MonthBucket {
    if |d| == 0 then MonthBucket(k, 0.0, 0.0) else if d[0].name == k then d[0] else BucketOf(d[1..], k)
  }

  function IncomeTotal(d: seq<MonthBucket>): real {
    if |d| == 0 then 0.0 else d[0].income + IncomeTotal(d[1..])
  }

  function ExpenseTotal(d: seq<MonthBucket>): real {
    if |d| == 0 then 0.0 else d[0].expense + ExpenseTotal(d[1..])
  }

  /** Create the bucket for `k` with zeros if missing, then credit `t` to it. */
  function AddToMonth(d: seq<MonthBucket>, k: string, t: Transaction): (r: seq<MonthBucket>)
    ensures |d| <= |r| <= |d| + 1
  {
    if |d| == 0 then [Credit(MonthBucket(k, 0.0, 0.0), t)]
    else if d[0].name == k then [Credit(d[0], t)] + d[1..]
    else [d[0]] + AddToMonth(d[1..], k, t)
  }

  lemma {:induction false} AddToMonthNames(d: seq<MonthBucket>, k: string, t: Transaction)
    ensures MonthNames(AddToMonth(d, k, t)) == if k in MonthNames(d) then MonthNames(d) else MonthNames(d) + [k]
  {
    if |d| > 0 && d[0].name != k {
      AddToMonthNames(d[1..], k, t);
      var r := AddToMonth(d, k, t);
      assert r[1..] == AddToMonth(d[1..], k, t);
      assert MonthNames(d) == [d[0].name] + MonthNames(d[1..]);
    } else if |d| > 0 {
      var r := AddToMonth(d, k, t);
      assert r[1..] == d[1..];
    }
  }

  /** Crediting adds the amount to exactly one of the two column totals. */
  lemma {:induction false} AddToMonthTotals(d: seq<MonthBucket>, k: string, t: Transaction)
    ensures IncomeTotal(AddToMonth(d, k, t)) == IncomeTotal(d) + (if t.kind == Income then t.amount else 0.0)
    ensures ExpenseTotal(AddToMonth(d, k, t)) == ExpenseTotal(d) + (if t.kind == Income then 0.0 else t.amount)
  {
    if |d| > 0 && d[0].name != k {
      AddToMonthTotals(d[1..], k, t);
      assert AddToMonth(d, k, t)[1..] == AddToMonth(d[1..], k, t);
    } else if |d| > 0 {
      assert AddToMonth(d, k, t)[1..] == d[1..];
    }
  }

  /** Only the bucket of `k` changes, by crediting `t` to it. */
  lemma {:induction false} AddToMonthAt(d: seq<MonthBucket>, k: string, t: Transaction, k': string)
    ensures BucketOf(AddToMonth(d, k, t), k') == if k' == k then Credit(BucketOf(d, k), t) else BucketOf(d, k')
  {
    if |d| > 0 && d[0].name != k {
      AddToMonthAt(d[1..], k, t, k');
      assert AddToMonth(d, k, t)[1..] == AddToMonth(d[1..], k, t);
    }
  }

  /** The buckets after crediting every transaction to the bucket of its month key. */
  function MonthBuckets(ts: seq<Transaction>, monthOf: int -> string): (r: seq<MonthBucket>)
    ensures |r| <= |ts|
    ensures |ts| > 0 ==> |r| > 0
  {
    if |ts| == 0 then []
    else
      var t := ts[|ts| - 1];
      AddToMonth(MonthBuckets(ts[..|ts| - 1], monthOf), monthOf(t.date), t)
  }

  /** The transactions whose date falls in month `k`, in order. */
  function InMonth(ts: seq<Transaction>, monthOf: int -> string, k: string): seq<Transaction> {
    if |ts| == 0 then []
    else
      var t := ts[|ts| - 1];
      InMonth(ts[..|ts| - 1], monthOf, k) + (if monthOf(t.date) == k then [t] else [])
  }

  /** True when some transaction falls in month `k`. */
  ghost predicate HasMonth(ts: seq<Transaction>, monthOf: int -> string, k: string) {
    exists i :: 0 <= i < |ts| && monthOf(ts[i].date) == k
  }

  /** Extending the list by one transaction adds at most its own month key. */
  lemma HasMonthLast(ts: seq<Transaction>, monthOf: int -> string, k: string)
    requires |ts| > 0
    ensures HasMonth(ts, monthOf, k) <==> HasMonth(ts[..|ts| - 1], monthOf, k) || monthOf(ts[|ts| - 1].date) == k
  {
    var p := ts[..|ts| - 1];
    if HasMonth(ts, monthOf, k) {
      var i :| 0 <= i < |ts| && monthOf(ts[i].date) == k;
      if i < |p| { assert p[i] == ts[i]; }
    }
    if HasMonth(p, monthOf, k) {
      var i :| 0 <= i < |p| && monthOf(p[i].date) == k;
      assert ts[i] == p[i];
    }
  }

  /** Each month key of some transaction is a bucket exactly once, and there are no other buckets. */
  lemma {:induction false} MonthBucketKeys(ts: seq<Transaction>, monthOf: int -> string)
    ensures NoDuplicates(MonthNames(MonthBuckets(ts, monthOf)))
    ensures forall k :: k in MonthNames(MonthBuckets(ts, monthOf)) <==> HasMonth(ts, monthOf, k)
  {
    if |ts| > 0 {
      var p := ts[..|ts| - 1];
      var t := ts[|ts| - 1];
      var d := MonthBuckets(p, monthOf);
      MonthBucketKeys(p, monthOf);
      AddToMonthNames(d, monthOf(t.date), t);
      if monthOf(t.date) !in MonthNames(d) {
        NoDuplicatesAppend(MonthNames(d), monthOf(t.date));
      }
      forall k ensures HasMonth(ts, monthOf, k) <==> HasMonth(p, monthOf, k) || monthOf(t.date) == k {
        HasMonthLast(ts, monthOf, k);
      }
    }
  }

  /** The Income and the Expense total of month `k`. */
  function MonthTotal(ts: seq<Transaction>, monthOf: int -> string, k: string, kind: TransactionType): real {
    Sum(OfType(InMonth(ts, monthOf, k), kind))
  }

  /** A new transaction adds to the totals of its own month and type only. */
  lemma MonthTotalLast(ts: seq<Transaction>, monthOf: int -> string, k: string, kind: TransactionType)
    requires |ts| > 0
    ensures var t := ts[|ts| - 1];
      MonthTotal(ts, monthOf, k, kind)
      == MonthTotal(ts[..|ts| - 1], monthOf, k, kind) + (if monthOf(t.date) == k && t.kind == kind then t.amount else 0.0)
  {
    var p := ts[..|ts| - 1];
    var t := ts[|ts| - 1];
    var tail := if monthOf(t.date) == k then [t] else [];
    assert InMonth(ts, monthOf, k) == InMonth(p, monthOf, k) + tail;
    OfTypeConcat(InMonth(p, monthOf, k), tail, kind);
    assert OfType(tail, kind) == (if monthOf(t.date) == k && t.kind == kind then [t] else []) by {
      if tail != [] { assert tail[..0] == []; }
    }
    SumConcat(OfType(InMonth(p, monthOf, k), kind), OfType(tail, kind));
  }

  /** The bucket of month `k` holds the Income and the Expense total of the transactions of that month. */
  lemma {:induction false} MonthBucketValues(ts: seq<Transaction>, monthOf: int -> string, k: string)
    ensures BucketOf(MonthBuckets(ts, monthOf), k)
         == MonthBucket(k, MonthTotal(ts, monthOf, k, Income), MonthTotal(ts, monthOf, k, Expense))
  {
    if |ts| > 0 {
      MonthBucketValues(ts[..|ts| - 1], monthOf, k);
      MonthBucketStep(ts, monthOf, k);
    } else {
      assert OfType([], Income) == [] && OfType([], Expense) == [];
    }
  }

  /** One more transaction keeps the bucket of `k` equal to the totals of month `k`. */
  lemma MonthBucketStep(ts: seq<Transaction>, monthOf: int -> string, k: string)
    requires |ts| > 0
    requires BucketOf(MonthBuckets(ts[..|ts| - 1], monthOf), k)
          == MonthBucket(k, MonthTotal(ts[..|ts| - 1], monthOf, k, Income), MonthTotal(ts[..|ts| - 1], monthOf, k, Expense))
    ensures BucketOf(MonthBuckets(ts, monthOf), k)
         == MonthBucket(k, MonthTotal(ts, monthOf, k, Income), MonthTotal(ts, monthOf, k, Expense))
  {
    var p := ts[..|ts| - 1];
    var t := ts[|ts| - 1];
    var m := monthOf(t.date);
    var d := MonthBuckets(p, monthOf);
    assert MonthBuckets(ts, monthOf) == AddToMonth(d, m, t);
    AddToMonthAt(d, m, t, k);
    MonthTotalLast(ts, monthOf, k, Income);
    MonthTotalLast(ts, monthOf, k, Expense);
    var inc := MonthTotal(p, monthOf, k, Income);
    var exp := MonthTotal(p, monthOf, k, Expense);
    if m == k && t.kind == Income {
      assert Credit(MonthBucket(k, inc, exp), t) == MonthBucket(k, inc + t.amount, exp);
    } else if m == k {
      assert Credit(MonthBucket(k, inc, exp), t) == MonthBucket(k, inc, exp + t.amount);
    }
  }

  /** Across all buckets, incomes add up to the revenue and expenses to the expense total. */
  lemma {:induction false} MonthBucketTotals(ts: seq<Transaction>, monthOf: int -> string)
    ensures IncomeTotal(MonthBuckets(ts, monthOf)) == Sum(OfType(ts, Income))
    ensures ExpenseTotal(MonthBuckets(ts, monthOf)) == Sum(OfType(ts, Expense))
  {
    if |ts| > 0 {
      var p := ts[..|ts| - 1];
      var t := ts[|ts| - 1];
      MonthBucketTotals(p, monthOf);
      var d := MonthBuckets(p, monthOf);
      assert MonthBuckets(ts, monthOf) == AddToMonth(d, monthOf(t.date), t);
      AddToMonthTotals(d, monthOf(t.date), t);
      SumConcat(OfType(p, Income), if t.kind == Income then [t] else []);
      SumConcat(OfType(p, Expense), if t.kind == Expense then [t] else []);
    }
  }

  /** `monthlyData` before its sort: every transaction credited to its month's bucket in a `forEach` loop. */
  method MonthlyData(ts: seq<Transaction>, monthOf: int -> string) returns (r: seq<MonthBucket>)
    ensures r == MonthBuckets(ts, monthOf)
    ensures NoDuplicates(MonthNames(r))
    ensures IncomeTotal(r) == ComputeTotals(ts).totalRevenue
    ensures ExpenseTotal(r) == ComputeTotals(ts).totalExpenses
  {
    var months: seq<MonthBucket> := [];
    var i := 0;
    while i < |ts|
      invariant 0 <= i <= |ts|
      invariant months == MonthBuckets(ts[..i], monthOf)
    {
      var t := ts[i];
      assert ts[..i + 1][..i] == ts[..i];
      months := AddToMonth(months, monthOf(t.date), t);
      i := i + 1;
    }
    assert ts[..|ts|] == ts;
    MonthBucketKeys(ts, monthOf);
    MonthBucketTotals(ts, monthOf);
    r := months;
  }
}
