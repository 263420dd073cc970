/**
 * The income and expenses pages: the category choices, the listing of one
 * type newest first, and the add-transaction form.
 */
module TransactionsPage {
  import opened Types
  import opened Ledger

  /** The income categories on the Income page, the expense categories otherwise. */
  function CategoriesFor(kind: TransactionType): (r: seq<CategoryOption>)
    ensures kind == Income ==> r == IncomeCategories
    ensures kind == Expense ==> r == ExpenseCategories
    ensures |r| > 0 && r[0].value != ""
  {
    if kind == Income then IncomeCategories else ExpenseCategories
  }

  /** Newest first: no transaction is listed after an older one. */
  predicate NewestFirstOrder(s: seq<Transaction>) {
    forall i, j :: 0 <= i < j < |s| ==> s[i].date >= s[j].date
  }

  /** `x` placed before the first entry that is not newer than it. */
  function Insert(x: Transaction, s: seq<Transaction>): (r: seq<Transaction>)
    ensures multiset(r) == multiset(s) + multiset{x}
    ensures |r| == |s| + 1
    ensures r[0] == x || (|s| > 0 && r[0] == s[0])
  {
    if |s| == 0 then [x]
    else if x.date >= s[0].date then [x] + s
    else
      var rest := Insert(x, s[1..]);
      assert s == [s[0]] + s[1..];
      [s[0]] + rest
  }

  /** Putting in front an entry no older than the first keeps a list newest first. */
  lemma ConsKeepsOrder(x: Transaction, s: seq<Transaction>)
    requires NewestFirstOrder(s)
    requires |s| > 0 ==> x.date >= s[0].date
    ensures NewestFirstOrder([x] + s)
  {
    var r := [x] + s;
    forall i, j | 0 <= i < j < |r| ensures r[i].date >= r[j].date {
      assert r[j] == s[j - 1];
      if i > 0 { assert r[i] == s[i - 1]; }
    }
  }

  /** Every suffix of a newest-first list is newest first. */
  lemma TailKeepsOrder(s: seq<Transaction>)
    requires |s| > 0 && NewestFirstOrder(s)
    ensures NewestFirstOrder(s[1..])
  {
    var t := s[1..];
    forall i, j | 0 <= i < j < |t| ensures t[i].date >= t[j].date {
      assert t[i] == s[i + 1] && t[j] == s[j + 1];
    }
  }

  /** Inserting into a newest-first list keeps it newest first. */
  lemma {:induction false} InsertKeepsOrder(x: Transaction, s: seq<Transaction>)
    requires NewestFirstOrder(s)
    ensures NewestFirstOrder(Insert(x, s))
  {
    if |s| > 0 && x.date < s[0].date {
      TailKeepsOrder(s);
      InsertKeepsOrder(x, s[1..]);
      var rest := Insert(x, s[1..]);
      assert rest[0].date <= s[0].date;
      ConsKeepsOrder(s[0], rest);
    } else {
      ConsKeepsOrder(x, s);
    }
  }

  /** The sort by date, descending; among equal dates the earlier entry stays first. */
  function NewestFirst(s: seq<Transaction>): (r: seq<Transaction>)
    ensures multiset(r) == multiset(s)
    ensures NewestFirstOrder(r)
  {
    if |s| == 0 then []
    else
      assert s == [s[0]] + s[1..];
      InsertKeepsOrder(s[0], NewestFirst(s[1..]));
      Insert(s[0], NewestFirst(s[1..]))
  }

  /** `filteredTransactions`: the transactions of the page's type, newest first. */
  function Listed(ts: seq<Transaction>, kind: TransactionType): (r: seq<Transaction>)
    ensures multiset(r) == multiset(OfType(ts, kind))
    ensures NewestFirstOrder(r)
  {
    NewestFirst(OfType(ts, kind))
  }

  /**
   * The listing is ordered newest first and holds each transaction of the
   * page's type exactly as often as the store does, and nothing else.
   */
  lemma ListedFacts(ts: seq<Transaction>, kind: TransactionType)
    ensures NewestFirstOrder(Listed(ts, kind))
    ensures multiset(Listed(ts, kind)) == multiset(OfType(ts, kind))
    ensures forall t :: multiset(Listed(ts, kind))[t] == if t.kind == kind then multiset(ts)[t] else 0
    ensures forall i :: 0 <= i < |Listed(ts, kind)| ==> Listed(ts, kind)[i].kind == kind
  {
    OfTypeCounts(ts, kind);
    var l := Listed(ts, kind);
    forall i | 0 <= i < |l| ensures l[i].kind == kind {
      assert l[i] in multiset(l);
    }
  }

  /** The state of the add-transaction form on the page of one type. */
  class TransactionForm {
    const kind: TransactionType
    var description: string
    var amount: string
    var category: string

    /** Empty description and amount; the first category of the page's list. */
    constructor (kind: TransactionType)
      ensures this.kind == kind
      ensures description == "" && amount == ""
      ensures category == CategoriesFor(kind)[0].value
    {
      this.kind := kind;
      description := "";
      amount := "";
      category := CategoriesFor(kind)[0].value;
    }

    /** Choosing another category in the drop-down. */
    method SelectCategory(c: string)
      modifies this
      ensures category == c
      ensures description == old(description) && amount == old(amount)
    {
      category := c;
    }

    /**
     * `handleSubmit`: the input handed to `onAddTransaction`, or None when a
     * field is empty. On success, description and amount are cleared and the
     * category stays selected. `parseAmount` is `parseFloat`.
     */
    method Submit(parseAmount: string -> real) returns (r: Option<TransactionInput>)
      modifies this
      ensures r.None? <==> old(description) == "" || old(amount) == "" || old(category) == ""
      ensures r.None? ==>
        description == old(description) && amount == old(amount) && category == old(category)
      ensures r.Some? ==>
        && r.value == TransactionInput(old(description), parseAmount(old(amount)), old(category))
        && description == "" && amount == "" && category == old(category)
    {
      if description == "" || amount == "" || category == "" {
        return None;
      }
      r := Some(TransactionInput(description, parseAmount(amount), category));
      description := "";
      amount := "";
    }
  }
}
