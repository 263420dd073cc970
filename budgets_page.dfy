/**
 * The budgets page: the per-budget evaluation (spent, remaining, progress,
 * alert status) and the budget form with its prefill rule and validation.
 */
module BudgetsPage {
  import opened Types
  import opened Ledger
  import Store

  datatype AlertStatus = Ok | Warning | Danger

  /** A budget together with what the page derives from it. */
  datatype BudgetView = BudgetView(
    id: string,
    category: string,
    amount: real,
    spent: real,
    remaining: real,
    progress: real,
    categoryName: string,
    alertStatus: AlertStatus,
    alertsEnabled: bool,
    alertThreshold: int)

  /** The alert threshold, in percent, assumed when a budget has none. */
  const DefaultThreshold: int := 80

  /** What has been spent against a budget for `category`. */
  function Spent(ts: seq<Transaction>, category: string): (r: real)
    ensures NonNegative(ts) ==> r >= 0.0
  {
    Sum(ExpensesIn(ts, category))
  }

  /** A new transaction adds to the spend exactly when it is an Expense of that category. */
  lemma SpentAppend(ts: seq<Transaction>, t: Transaction, category: string)
    ensures Spent(ts + [t], category)
         == Spent(ts, category) + (if t.kind == Expense && t.category == category then t.amount else 0.0)
  {
    assert (ts + [t])[..|ts|] == ts;
    SumConcat(ExpensesIn(ts, category), if t.kind == Expense && t.category == category then [t] else []);
  }

  /** Income, and expenses of other categories, contribute nothing to the spend. */
  lemma {:induction false} SpentWithoutMatches(ts: seq<Transaction>, category: string)
    requires forall i :: 0 <= i < |ts| ==> ts[i].kind == Income || ts[i].category != category
    ensures Spent(ts, category) == 0.0
  {
    if |ts| > 0 {
      var p := ts[..|ts| - 1];
      SpentWithoutMatches(p, category);
      assert ExpensesIn(ts, category) == ExpensesIn(p, category) + [];
      assert ExpensesIn(p, category) + [] == ExpensesIn(p, category);
    }
  }

  /** Spend as a percentage of the budget; a budget of zero or less always shows 0%. */
  function Progress(spent: real, amount: real): (p: real)
    ensures amount > 0.0 ==> p * amount == spent * 100.0
    ensures amount <= 0.0 ==> p == 0.0
  {
    if amount > 0.0 then spent / amount * 100.0 else 0.0
  }

  /** The alert status for the effective settings and the progress. */
  function Classify(enabled: bool, threshold: int, progress: real): (s: AlertStatus)
    ensures !enabled ==> s == Ok
    ensures enabled ==> (s == Danger <==> progress >= 100.0)
    ensures enabled ==> (s == Warning <==> threshold as real <= progress < 100.0)
  {
    if !enabled then Ok
    else if progress >= 100.0 then Danger
    else if progress >= threshold as real then Warning
    else Ok
  }

  /** The label of a known expense category, else the category text itself. */
  function CategoryName(category: string): string {
    match LabelOf(ExpenseCategories, category)
    case Some(text) => if text != "" then text else category
    case None => category
  }

  /** The expense categories offer each value once. */
  lemma ExpenseValuesDistinct()
    ensures DistinctValues(ExpenseCategories)
  {
  }

  /** Every expense category is shown by its label; anything else by its own text. */
  lemma CategoryNameCases(category: string)
    ensures forall i :: 0 <= i < |ExpenseCategories| && ExpenseCategories[i].value == category ==>
      CategoryName(category) == ExpenseCategories[i].text
    ensures (forall i :: 0 <= i < |ExpenseCategories| ==> ExpenseCategories[i].value != category) ==>
      CategoryName(category) == category
  {
    ExpenseValuesDistinct();
    LabelOfFirst(ExpenseCategories, category);
    var o := ExpenseCategories;
    forall i | 0 <= i < |o| && o[i].value == category
      ensures CategoryName(category) == o[i].text
    {
      assert FirstWithValue(o, category, i);
      assert o[i].text != "";
    }
  }

  /** The view of budget `b` once its spend and display name are known. */
  function Assess(b: Budget, spent: real, name: string): (v: BudgetView)
    ensures v.id == b.id && v.category == b.category && v.amount == b.amount
    ensures v.spent == spent && v.categoryName == name
    ensures v.remaining + v.spent == b.amount
    ensures v.remaining < 0.0 <==> v.spent > b.amount
    ensures b.amount > 0.0 ==> v.progress * b.amount == v.spent * 100.0
    ensures b.amount <= 0.0 ==> v.progress == 0.0
    // a missing alertsEnabled counts as false here, a missing threshold as 80
    ensures v.alertsEnabled <==> b.alertsEnabled == Some(true)
    ensures v.alertThreshold == if b.alertThreshold.Some? then b.alertThreshold.value else DefaultThreshold
    ensures !v.alertsEnabled ==> v.alertStatus == Ok
    ensures v.alertsEnabled ==> (v.alertStatus == Danger <==> v.progress >= 100.0)
    ensures v.alertsEnabled ==> (v.alertStatus == Warning <==> v.alertThreshold as real <= v.progress < 100.0)
  {
    var progress := Progress(spent, b.amount);
    var enabled := b.alertsEnabled.GetOr(false);
    var threshold := b.alertThreshold.GetOr(DefaultThreshold);
    BudgetView(b.id, b.category, b.amount, spent, b.amount - spent, progress,
               name, Classify(enabled, threshold, progress), enabled, threshold)
  }

  /** One budget evaluated against the transaction list: its spend and display name, then `Assess`. */
  function Evaluate(b: Budget, ts: seq<Transaction>): (v: BudgetView)
    ensures v.spent == Spent(ts, b.category)
    ensures v.categoryName == CategoryName(b.category)
    ensures v == Assess(b, v.spent, v.categoryName)
  {
    Assess(b, Spent(ts, b.category), CategoryName(b.category))
  }

  /** `budgetData`: one evaluated entry per budget, in the budgets' order. */
  function BudgetData(bs: seq<Budget>, ts: seq<Transaction>): (r: seq<BudgetView>)
    ensures |r| == |bs|
    ensures forall i :: 0 <= i < |bs| ==> r[i] == Evaluate(bs[i], ts)
  {
    seq(|bs|, i requires 0 <= i < |bs| => Evaluate(bs[i], ts))
  }

  /** With alerts on and a positive amount, the status is danger exactly when spend reaches the amount. */
  lemma DangerIffSpendReachesAmount(b: Budget, ts: seq<Transaction>)
    requires b.alertsEnabled == Some(true) && b.amount > 0.0
    ensures Evaluate(b, ts).alertStatus == Danger <==> Spent(ts, b.category) >= b.amount
  {
    var v := Evaluate(b, ts);
    PercentReaches(v.progress, b.amount, v.spent);
  }

  /** A percentage `p` of a positive `amount` that `spent` makes is 100 or more exactly when `spent` reaches `amount`. */
  lemma PercentReaches(p: real, amount: real, spent: real)
    requires amount > 0.0 && p * amount == spent * 100.0
    ensures p >= 100.0 <==> spent >= amount
  {
    if p >= 100.0 {
      assert p * amount >= 100.0 * amount;
    } else {
      assert p * amount < 100.0 * amount;
    }
  }

  /** A budget of zero or less never alerts while its threshold is positive, whatever the spend. */
  lemma NonPositiveAmountIsOk(b: Budget, ts: seq<Transaction>)
    requires b.amount <= 0.0
    requires b.alertThreshold.GetOr(DefaultThreshold) >= 1
    ensures Evaluate(b, ts).progress == 0.0 && Evaluate(b, ts).alertStatus == Ok
  {
  }

  /** Valid thresholds are whole percentages from 1 to 100. */
  predicate ThresholdValid(t: Option<int>) {
    t.Some? && 1 <= t.value <= 100
  }

  /** The state of the "Set or Update Budget" form. */
  class BudgetForm {
    var category: string
    var amount: string
    var alertsEnabled: bool
    var alertThreshold: string

    /** The first expense category, no amount, alerts on at 80%. */
    constructor ()
      ensures category == ExpenseCategories[0].value
      ensures amount == "" && alertsEnabled && alertThreshold == "80"
    {
      category := ExpenseCategories[0].value;
      amount := "";
      alertsEnabled := true;
      alertThreshold := "80";
    }

    /** Choosing another category in the drop-down. */
    method SelectCategory(c: string)
      modifies this
      ensures category == c
      ensures amount == old(amount) && alertsEnabled == old(alertsEnabled) && alertThreshold == old(alertThreshold)
    {
      category := c;
    }

    /**
     * The effect run after the category or the budget list changed: load the
     * existing budget of the category (a missing alertsEnabled counts as true
     * here), or reset the form. `showAmount` and `showThreshold` are `String(...)`.
     */
    method Prefill(budgets: seq<Budget>, showAmount: real -> string, showThreshold: int -> string)
      modifies this
      ensures category == old(category)
      ensures var i := Store.FindCategory(budgets, category);
        if i >= 0 then
          && amount == showAmount(budgets[i].amount)
          && alertsEnabled == budgets[i].alertsEnabled.GetOr(true)
          && alertThreshold == showThreshold(budgets[i].alertThreshold.GetOr(DefaultThreshold))
        else
          amount == "" && alertsEnabled && alertThreshold == "80"
    {
      var i := Store.FindCategory(budgets, category);
      if i >= 0 {
        var existing := budgets[i];
        amount := showAmount(existing.amount);
        alertsEnabled := existing.alertsEnabled.GetOr(true);
        alertThreshold := showThreshold(existing.alertThreshold.GetOr(DefaultThreshold));
      } else {
        amount := "";
        alertsEnabled := true;
        alertThreshold := "80";
      }
    }

    /**
     * `handleSubmit`: the budget handed to `onSetBudget`, or None when the form
     * is rejected. The threshold is checked even when alerts are off.
     * `parseAmount` is `parseFloat`; `parseThreshold` is `parseInt(_, 10)`, None for NaN.
     */
    method Submit(parseAmount: string -> real, parseThreshold: string -> Option<int>) returns (r: Option<BudgetInput>)
      ensures r.None? <==> category == "" || amount == "" || !ThresholdValid(parseThreshold(alertThreshold))
      ensures r.Some? ==> r.value == BudgetInput(category, parseAmount(amount), Some(alertsEnabled), parseThreshold(alertThreshold))
    {
      if category == "" || amount == "" {
        return None;
      }
      var threshold := parseThreshold(alertThreshold);
      if threshold.None? || threshold.value < 1 || threshold.value > 100 {
        return None;
      }
      r := Some(BudgetInput(category, parseAmount(amount), Some(alertsEnabled), threshold));
    }
  }
}
