/** The records the finance tracker stores and the fixed category lists it offers. */
module Types {

  /** An optional value; `None` stands for a property that is absent (`undefined`). */
  datatype Option<T> = None | Some(value: T) {
    /** The value, or `default` when absent (the `??` operator). */
    function GetOr(default: T): T {
      if Some? then value else default
    }
  }

  datatype TransactionType = Income | Expense

  /** The text a transaction type is stored and exported as. */
  function TypeName(kind: TransactionType): (r: string)
    ensures r == "income" || r == "expense"
    ensures r == "income" <==> kind == Income
  {
    match kind
    case Income => "income"
    case Expense => "expense"
  }

  /** One ledger entry. `date` is the creation time as a timestamp. */
  datatype Transaction = Transaction(
    id: string,
    date: int,
    kind: TransactionType,
    description: string,
    amount: real,
    category: string)

  /** A spending ceiling for one expense category; the alert settings may be absent. */
  datatype Budget = Budget(
    id: string,
    category: string,
    amount: real,
    alertsEnabled: Option<bool>,
    alertThreshold: Option<int>)

  /** What a transaction form hands to the store: a transaction without id, type and date. */
  datatype TransactionInput = TransactionInput(description: string, amount: real, category: string)

  /** What the budget form hands to the store: a budget without id. */
  datatype BudgetInput = BudgetInput(
    category: string,
    amount: real,
    alertsEnabled: Option<bool>,
    alertThreshold: Option<int>)

  /** An entry of a category drop-down: the stored value and the label text shown. */
  datatype CategoryOption = CategoryOption(value: string, text: string)

  const IncomeCategories: seq<CategoryOption> := [
    CategoryOption("sales", "Sales"),
    CategoryOption("services", "Services"),
    CategoryOption("investments", "Investments"),
    CategoryOption("funding", "Funding"),
    CategoryOption("other", "Other")
  ]

  const ExpenseCategories: seq<CategoryOption> := [
    CategoryOption("operations", "Operations"),
    CategoryOption("payroll", "Payroll"),
    CategoryOption("marketing", "Marketing"),
    CategoryOption("utilities", "Utilities"),
    CategoryOption("materials", "Raw Materials"),
    CategoryOption("rent", "Rent/Lease"),
    CategoryOption("other", "Other")
  ]

  /** No option before position `i` has the value `value`. */
  predicate FirstWithValue(options: seq<CategoryOption>, value: string, i: int)
    requires 0 <= i <= |options|
  {
    forall j :: 0 <= j < i ==> options[j].value != value
  }

  /** No value is offered twice. */
  predicate DistinctValues(options: seq<CategoryOption>) {
    forall i, j :: 0 <= i < j < |options| ==> options[i].value != options[j].value
  }

  /** The label of the first option whose value is `value`, if any (`find(c => c.value === value)?.label`). */
  function LabelOf(options: seq<CategoryOption>, value: string): Option<string> {
    if |options| == 0 then None
    else if options[0].value == value then Some(options[0].text)
    else LabelOf(options[1..], value)
  }

  /** The lookup finds nothing exactly when no option has the value, and otherwise the label of the first that has it. */
  lemma {:induction false} LabelOfFirst(options: seq<CategoryOption>, value: string)
    ensures LabelOf(options, value).None? <==> forall i :: 0 <= i < |options| ==> options[i].value != value
    ensures forall i :: 0 <= i < |options| && options[i].value == value && FirstWithValue(options, value, i) ==>
      LabelOf(options, value) == Some(options[i].text)
  {
    if |options| > 0 && options[0].value != value {
      var rest := options[1..];
      LabelOfFirst(rest, value);
      forall i | 0 <= i < |options| && options[i].value == value && FirstWithValue(options, value, i)
        ensures LabelOf(options, value) == Some(options[i].text)
      {
        assert rest[i - 1] == options[i];
        assert FirstWithValue(rest, value, i - 1) by {
          forall j | 0 <= j < i - 1 ensures rest[j].value != value {
            assert rest[j] == options[j + 1];
          }
        }
      }
      if LabelOf(options, value).Some? {
        var j :| 0 <= j < |rest| && rest[j].value == value;
        assert options[j + 1] == rest[j];
      }
      if LabelOf(options, value).None? {
        forall i | 0 <= i < |options| ensures options[i].value != value {
          if i > 0 { assert options[i] == rest[i - 1]; }
        }
      }
    }
  }
}
