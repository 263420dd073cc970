/**
 * The record store: the two lists the application keeps per account
 * (transactions and budgets) and the handlers that replace them.
 */
module Store {
  import opened Types

  function TransactionId(t: Transaction): string { t.id }
  function BudgetId(b: Budget): string { b.id }

  function BudgetCategory(b: Budget): string { b.category }

  /** No two elements share a key (an id, say). */
  ghost predicate KeysDistinct<T>(s: seq<T>, keyOf: T -> string) {
    forall i, j :: 0 <= i < j < |s| ==> keyOf(s[i]) != keyOf(s[j])
  }

  /** At most one budget per category. */
  ghost predicate CategoriesDistinct(bs: seq<Budget>) {
    KeysDistinct(bs, BudgetCategory)
  }

  /** The elements whose id is not `id`, in their original order: `filter(x => x.id !== id)`. */
  function Without<T>(s: seq<T>, idOf: T -> string, id: string): (r: seq<T>)
    ensures |r| <= |s|
    ensures forall i :: 0 <= i < |r| ==> idOf(r[i]) != id
  {
    if |s| == 0 then []
    else Without(s[..|s| - 1], idOf, id) + (if idOf(s[|s| - 1]) != id then [s[|s| - 1]] else [])
  }

  /** An element survives removal exactly when it was there and has another id. */
  lemma {:induction false} WithoutMembers<T>(s: seq<T>, idOf: T -> string, id: string)
    ensures forall x :: x in Without(s, idOf, id) <==> x in s && idOf(x) != id
  {
    if |s| > 0 {
      WithoutMembers(s[..|s| - 1], idOf, id);
      assert s == s[..|s| - 1] + [s[|s| - 1]];
    }
  }

  lemma WithoutElement<T>(s: seq<T>, idOf: T -> string, id: string, i: int)
    requires 0 <= i < |Without(s, idOf, id)|
    ensures Without(s, idOf, id)[i] in s
  {
    WithoutMembers(s, idOf, id);
    var w := Without(s, idOf, id);
    assert w[i] in w;
  }

  /** Removing an id nobody has changes nothing. */
  lemma {:induction false} WithoutAbsent<T>(s: seq<T>, idOf: T -> string, id: string)
    requires forall i :: 0 <= i < |s| ==> idOf(s[i]) != id
    ensures Without(s, idOf, id) == s
  {
    if |s| > 0 {
      WithoutAbsent(s[..|s| - 1], idOf, id);
      assert s == s[..|s| - 1] + [s[|s| - 1]];
    }
  }

  /** Removal works element by element, so the survivors keep their relative order. */
  lemma {:induction false} WithoutConcat<T>(a: seq<T>, b: seq<T>, idOf: T -> string, id: string)
    ensures Without(a + b, idOf, id) == Without(a, idOf, id) + Without(b, idOf, id)
  {
    if |b| > 0 {
      var b' := b[..|b| - 1];
      assert (a + b)[..|a + b| - 1] == a + b';
      WithoutConcat(a, b', idOf, id);
    } else {
      assert a + b == a;
    }
  }

  /** Removal keeps any key that was unique unique. */
  lemma {:induction false} WithoutKeepsKeysDistinct<T>(s: seq<T>, idOf: T -> string, id: string, keyOf: T -> string)
    requires KeysDistinct(s, keyOf)
    ensures KeysDistinct(Without(s, idOf, id), keyOf)
  {
    if |s| > 0 {
      var p := s[..|s| - 1];
      var last := s[|s| - 1];
      WithoutKeepsKeysDistinct(p, idOf, id, keyOf);
      var w := Without(p, idOf, id);
      forall i | 0 <= i < |w| ensures keyOf(w[i]) != keyOf(last) {
        WithoutElement(p, idOf, id, i);
        var k :| 0 <= k < |p| && p[k] == w[i];
        assert s[k] == p[k];
      }
    }
  }

  /** `findIndex(b => b.category === category)`: the first budget of that category, or -1. */
  function FindCategory(bs: seq<Budget>, category: string): (i: int)
    ensures -1 <= i < |bs|
    ensures i == -1 <==> forall j :: 0 <= j < |bs| ==> bs[j].category != category
    ensures 0 <= i ==> bs[i].category == category && forall j :: 0 <= j < i ==> bs[j].category != category
  {
    if |bs| == 0 then -1
    else if bs[0].category == category then 0
    else
      var k := FindCategory(bs[1..], category);
      if k == -1 then -1 else k + 1
  }

  /** A property the input carries replaces the existing one; an absent one leaves it. */
  function Override<T>(existing: Option<T>, given: Option<T>): Option<T> {
    if given.Some? then given else existing
  }

  /** `{ ...existing, ...input }`: the input's fields over the existing budget, whose id stays. */
  function Merge(existing: Budget, input: BudgetInput): (r: Budget)
    ensures r.id == existing.id && r.category == input.category && r.amount == input.amount
    ensures r.alertsEnabled == if input.alertsEnabled.Some? then input.alertsEnabled else existing.alertsEnabled
    ensures r.alertThreshold == if input.alertThreshold.Some? then input.alertThreshold else existing.alertThreshold
  {
    Budget(existing.id, input.category, input.amount,
           Override(existing.alertsEnabled, input.alertsEnabled),
           Override(existing.alertThreshold, input.alertThreshold))
  }

  /** `{ ...input, id }`: a new budget from the input. */
  function NewBudget(input: BudgetInput, id: string): (r: Budget)
    ensures r.id == id
    ensures BudgetInput(r.category, r.amount, r.alertsEnabled, r.alertThreshold) == input
  {
    Budget(id, input.category, input.amount, input.alertsEnabled, input.alertThreshold)
  }

  /** The budget list after setting `input`: overwrite the first entry of its category, else append. */
  function Upserted(bs: seq<Budget>, input: BudgetInput, freshId: string): (r: seq<Budget>)
    ensures |r| == if FindCategory(bs, input.category) >= 0 then |bs| else |bs| + 1
    ensures FindCategory(r, input.category) >= 0
  {
    var i := FindCategory(bs, input.category);
    if i >= 0 then
      var r := bs[i := Merge(bs[i], input)];
      assert r[i].category == input.category;
      r
    else
      var r := bs + [NewBudget(input, freshId)];
      assert r[|bs|].category == input.category;
      r
  }

  /** Setting a budget for a category already present rewrites that entry in place and keeps its id. */
  lemma UpsertExisting(bs: seq<Budget>, input: BudgetInput, freshId: string)
    requires FindCategory(bs, input.category) >= 0
    ensures var i := FindCategory(bs, input.category);
      var r := Upserted(bs, input, freshId);
      && |r| == |bs|
      && r[i].id == bs[i].id
      && r[i].category == input.category && r[i].amount == input.amount
      && (input.alertsEnabled.Some? ==> r[i].alertsEnabled == input.alertsEnabled)
      && (input.alertsEnabled.None? ==> r[i].alertsEnabled == bs[i].alertsEnabled)
      && (input.alertThreshold.Some? ==> r[i].alertThreshold == input.alertThreshold)
      && (input.alertThreshold.None? ==> r[i].alertThreshold == bs[i].alertThreshold)
      && forall j :: 0 <= j < |bs| && j != i ==> r[j] == bs[j]
  {
  }

  /** Setting a budget for a new category appends one entry with the fresh id. */
  lemma UpsertNew(bs: seq<Budget>, input: BudgetInput, freshId: string)
    requires forall j :: 0 <= j < |bs| ==> bs[j].category != input.category
    ensures var r := Upserted(bs, input, freshId);
      && |r| == |bs| + 1
      && r[..|bs|] == bs
      && r[|bs|] == Budget(freshId, input.category, input.amount, input.alertsEnabled, input.alertThreshold)
  {
  }

  /** Upserting keeps the budget categories pairwise distinct. */
  lemma UpsertKeepsCategoriesDistinct(bs: seq<Budget>, input: BudgetInput, freshId: string)
    requires CategoriesDistinct(bs)
    ensures CategoriesDistinct(Upserted(bs, input, freshId))
  {
  }

  /** Upserting with an unused id keeps the budget ids pairwise distinct. */
  lemma UpsertKeepsIdsDistinct(bs: seq<Budget>, input: BudgetInput, freshId: string)
    requires KeysDistinct(bs, BudgetId)
    requires forall j :: 0 <= j < |bs| ==> bs[j].id != freshId
    ensures KeysDistinct(Upserted(bs, input, freshId), BudgetId)
  {
  }

  /** Setting the same budget data twice gives the list that setting it once gives. */
  lemma UpsertIdempotent(bs: seq<Budget>, input: BudgetInput, id1: string, id2: string)
    ensures Upserted(Upserted(bs, input, id1), input, id2) == Upserted(bs, input, id1)
  {
    var i := FindCategory(bs, input.category);
    var r := Upserted(bs, input, id1);
    if i >= 0 {
      assert r[i].category == input.category;
      assert forall j :: 0 <= j < i ==> r[j] == bs[j];
    } else {
      assert r[|bs|].category == input.category;
      assert forall j :: 0 <= j < |bs| ==> r[j] == bs[j];
    }
  }

  /** The two lists the application keeps for the signed-in account. */
  class RecordStore {
    var transactions: seq<Transaction>
    var budgets: seq<Budget>

    /** Ids are unique in each list and each category has at most one budget. */
    ghost predicate Valid()
      reads this
    {
      KeysDistinct(transactions, TransactionId) && KeysDistinct(budgets, BudgetId) && CategoriesDistinct(budgets)
    }

    /** A store holding the lists read back from storage (both empty for a new account). */
    constructor (storedTransactions: seq<Transaction>, storedBudgets: seq<Budget>)
      ensures transactions == storedTransactions && budgets == storedBudgets
      ensures Valid() <==>
        KeysDistinct(storedTransactions, TransactionId) && KeysDistinct(storedBudgets, BudgetId)
        && CategoriesDistinct(storedBudgets)
    {
      transactions := storedTransactions;
      budgets := storedBudgets;
    }

    /** `handleAddTransaction`: append the input with a fresh id, the page's type and the creation time. */
    method AddTransaction(input: TransactionInput, kind: TransactionType, freshId: string, now: int)
      requires forall i :: 0 <= i < |transactions| ==> transactions[i].id != freshId
      modifies this
      ensures transactions == old(transactions)
        + [Transaction(freshId, now, kind, input.description, input.amount, input.category)]
      ensures budgets == old(budgets)
      ensures old(Valid()) ==> Valid()
    {
      transactions := transactions + [Transaction(freshId, now, kind, input.description, input.amount, input.category)];
    }

    /** `handleDeleteTransaction`: keep every transaction whose id differs. */
    method DeleteTransaction(id: string)
      modifies this
      ensures transactions == Without(old(transactions), TransactionId, id)
      ensures budgets == old(budgets)
      ensures old(Valid()) ==> Valid()
    {
      if Valid() {
        WithoutKeepsKeysDistinct(transactions, TransactionId, id, TransactionId);
      }
      transactions := Without(transactions, TransactionId, id);
    }

    /** `handleSetBudget`: overwrite the first budget of the input's category in a copy, or append. */
    method SetBudget(input: BudgetInput, freshId: string)
      requires forall i :: 0 <= i < |budgets| ==> budgets[i].id != freshId
      modifies this
      ensures budgets == Upserted(old(budgets), input, freshId)
      ensures transactions == old(transactions)
      ensures old(Valid()) ==> Valid()
    {
      if Valid() {
        UpsertKeepsCategoriesDistinct(budgets, input, freshId);
        UpsertKeepsIdsDistinct(budgets, input, freshId);
      }
      var existingIndex := FindCategory(budgets, input.category);
      if existingIndex > -1 {
        var updated := budgets;
        updated := updated[existingIndex := Merge(updated[existingIndex], input)];
        budgets := updated;
      } else {
        budgets := budgets + [NewBudget(input, freshId)];
      }
    }

    /** `handleDeleteBudget`: keep every budget whose id differs. */
    method DeleteBudget(id: string)
      modifies this
      ensures budgets == Without(old(budgets), BudgetId, id)
      ensures transactions == old(transactions)
      ensures old(Valid()) ==> Valid()
    {
      if Valid() {
        WithoutKeepsKeysDistinct(budgets, BudgetId, id, BudgetId);
        WithoutKeepsKeysDistinct(budgets, BudgetId, id, BudgetCategory);
      }
      budgets := Without(budgets, BudgetId, id);
    }

    /** `handleClearData`: both lists become empty. */
    method ClearData()
      modifies this
      ensures transactions == [] && budgets == []
      ensures Valid()
    {
      transactions := [];
      budgets := [];
    }
  }
}
