/**
 * The reports page: the CSV export text and the per-month income/expense
 * breakdown. The CSV fields are joined with ',' and the lines with '\n',
 * without quoting or escaping; `Split` is the reference reading of that text.
 */
module Reports {
  import opened Types
  import opened Ledger
  import Dashboard

  // ---------------------------------------------------------------------
  // Joining and splitting
  // ---------------------------------------------------------------------

  /** `Array.prototype.join`: the fields with `sep` between neighbours; no fields give "". */
  function Join(fs: seq<string>, sep: char): string {
    if |fs| == 0 then ""
    else if |fs| == 1 then fs[0]
    else fs[0] + [sep] + Join(fs[1..], sep)
  }

  /** How often `c` occurs in `s`. */
  function Count(s: string, c: char): nat {
    if |s| == 0 then 0 else (if s[0] == c then 1 else 0) + Count(s[1..], c)
  }

  /** The occurrences of `c` across all the fields. */
  function CountAll(fs: seq<string>, c: char): nat {
    if |fs| == 0 then 0 else Count(fs[0], c) + CountAll(fs[1..], c)
  }

  /** The pieces of `s` between occurrences of `c`, as a reader of the text would cut it. */
  function Split(s: string, c: char): (r: seq<string>)
    ensures |r| == Count(s, c) + 1
    ensures c !in s ==> r == [s]
    ensures forall i :: 0 <= i < |r| ==> c !in r[i]
  {
    if |s| == 0 then [""]
    else
      var rest := Split(s[1..], c);
      if s[0] == c then [""] + rest
      else
        assert c !in s ==> c !in s[1..] && [s[0]] + s[1..] == s;
        [[s[0]] + rest[0]] + rest[1..]
  }

  lemma {:induction false} CountConcat(a: string, b: string, c: char)
    ensures Count(a + b, c) == Count(a, c) + Count(b, c)
  {
    if |a| > 0 {
      assert (a + b)[1..] == a[1..] + b;
      CountConcat(a[1..], b, c);
    } else {
      assert a + b == b;
    }
  }

  lemma {:induction false} CountPositive(s: string, c: char)
    requires c in s
    ensures Count(s, c) > 0
  {
    if s[0] != c {
      CountPositive(s[1..], c);
    }
  }

  /** No field holds more occurrences than all fields together. */
  lemma {:induction false} CountAllAtLeast(fs: seq<string>, i: int, c: char)
    requires 0 <= i < |fs|
    ensures Count(fs[i], c) <= CountAll(fs, c)
  {
    if i > 0 {
      CountAllAtLeast(fs[1..], i - 1, c);
    }
  }

  /** Cutting at the first separator, when the text before it holds none. */
  lemma {:induction false} SplitAt(a: string, b: string, c: char)
    requires c !in a
    ensures Split(a + [c] + b, c) == [a] + Split(b, c)
  {
    var s := a + [c] + b;
    if |a| == 0 {
      assert s[1..] == b;
    } else {
      assert s[1..] == a[1..] + [c] + b;
      SplitAt(a[1..], b, c);
      assert [a[0]] + a[1..] == a;
    }
  }

  /** Splitting undoes joining when no field holds the separator. */
  lemma {:induction false} SplitJoin(fs: seq<string>, c: char)
    requires |fs| > 0
    requires forall i :: 0 <= i < |fs| ==> c !in fs[i]
    ensures Split(Join(fs, c), c) == fs
  {
    if |fs| > 1 {
      SplitJoin(fs[1..], c);
      SplitAt(fs[0], Join(fs[1..], c), c);
      assert [fs[0]] + fs[1..] == fs;
    }
  }

  /** The joined text holds one separator between each two fields, plus those inside the fields. */
  lemma {:induction false} CountJoin(fs: seq<string>, c: char)
    requires |fs| > 0
    ensures Count(Join(fs, c), c) == |fs| - 1 + CountAll(fs, c)
  {
    if |fs| > 1 {
      CountJoin(fs[1..], c);
      CountConcat(fs[0] + [c], Join(fs[1..], c), c);
      CountConcat(fs[0], [c], c);
      assert Count([c], c) == 1 by { assert [c][1..] == []; }
      assert fs[1..][1..] == fs[2..];
    } else {
      assert fs[1..] == [];
    }
  }

  /** A character that is neither the separator nor in any field is not in the joined text. */
  lemma {:induction false} JoinAvoids(fs: seq<string>, sep: char, c: char)
    requires c != sep
    requires forall i :: 0 <= i < |fs| ==> c !in fs[i]
    ensures c !in Join(fs, sep)
  {
    if |fs| > 1 {
      JoinAvoids(fs[1..], sep, c);
    }
  }

  /** Joining after putting `p` in front of the first field is putting `p` in front of the text. */
  lemma JoinPrefix(p: string, fs: seq<string>, c: char)
    requires |fs| > 0
    ensures Join([p + fs[0]] + fs[1..], c) == p + Join(fs, c)
  {
    var gs := [p + fs[0]] + fs[1..];
    assert gs[1..] == fs[1..];
  }

  // ---------------------------------------------------------------------
  // CSV export
  // ---------------------------------------------------------------------

  const CsvPrefix: string := "data:text/csv;charset=utf-8,"

  const HeaderFields: seq<string> := ["ID", "Date", "Type", "Description", "Category", "Amount"]

  /** The six cells of a transaction's row. `showDate` is the stored ISO text, `showAmount` is `String(amount)`. */
  function RowFields(t: Transaction, showDate: int -> string, showAmount: real -> string): (r: seq<string>)
    ensures |r| == |HeaderFields|
    ensures r[0] == t.id && r[1] == showDate(t.date) && r[2] == TypeName(t.kind)
    ensures r[3] == t.description && r[4] == t.category && r[5] == showAmount(t.amount)
  {
    [t.id, showDate(t.date), TypeName(t.kind), t.description, t.category, showAmount(t.amount)]
  }

  function Row(t: Transaction, showDate: int -> string, showAmount: real -> string): (r: string)
    ensures Count(r, ',') == 5 + CountAll(RowFields(t, showDate, showAmount), ',')
  {
    CountJoin(RowFields(t, showDate, showAmount), ',');
    Join(RowFields(t, showDate, showAmount), ',')
  }

  /** One row per transaction, in store order. */
  function Rows(ts: seq<Transaction>, showDate: int -> string, showAmount: real -> string): (r: seq<string>)
    ensures |r| == |ts|
    ensures forall i :: 0 <= i < |ts| ==> r[i] == Row(ts[i], showDate, showAmount)
  {
    seq(|ts|, i requires 0 <= i < |ts| => Row(ts[i], showDate, showAmount))
  }

  /** `csvContent`: the data-URI prefix, then the header line and the rows joined by newlines. */
  function CsvContent(ts: seq<Transaction>, showDate: int -> string, showAmount: real -> string): (r: string)
    ensures |r| >= |CsvPrefix| && r[..|CsvPrefix|] == CsvPrefix
  {
    var body := Join([Join(HeaderFields, ',')] + Rows(ts, showDate, showAmount), '\n');
    assert (CsvPrefix + body)[..|CsvPrefix|] == CsvPrefix;
    CsvPrefix + body
  }

  /** Six cells joined: each neighbouring pair separated by one `sep`. */
  lemma JoinSix(a: string, b: string, c: string, d: string, e: string, f: string, sep: char)
    ensures Join([a, b, c, d, e, f], sep) == a + [sep] + b + [sep] + c + [sep] + d + [sep] + e + [sep] + f
  {
    var fs := [a, b, c, d, e, f];
    assert fs[1..] == [b, c, d, e, f];
    assert fs[1..][1..] == [c, d, e, f];
    assert fs[1..][1..][1..] == [d, e, f];
    assert fs[1..][1..][1..][1..] == [e, f];
    assert fs[1..][1..][1..][1..][1..] == [f];
    var j4 := e + [sep] + f;
    assert Join([e, f], sep) == j4;
    var j3 := d + [sep] + j4;
    assert Join([d, e, f], sep) == j3;
    var j2 := c + [sep] + j3;
    assert Join([c, d, e, f], sep) == j2;
    var j1 := b + [sep] + j2;
    assert Join([b, c, d, e, f], sep) == j1;
  }

  /** The header line is `ID,Date,Type,Description,Category,Amount`. */
  lemma HeaderLine()
    ensures Join(HeaderFields, ',') == "ID,Date,Type,Description,Category,Amount"
  {
    JoinSix("ID", "Date", "Type", "Description", "Category", "Amount", ',');
    HeaderText();
  }

  lemma HeaderText()
    ensures "ID" + [','] + "Date" + [','] + "Type" + [','] + "Description" + [','] + "Category" + [','] + "Amount"
         == "ID,Date,Type,Description,Category,Amount"
  {
  }

  /** The text is the prefix, the header, and then, when there are transactions, a newline and the rows. */
  lemma CsvShape(ts: seq<Transaction>, showDate: int -> string, showAmount: real -> string)
    ensures CsvContent(ts, showDate, showAmount)
         == CsvPrefix + "ID,Date,Type,Description,Category,Amount"
            + (if |ts| == 0 then "" else "\n" + Join(Rows(ts, showDate, showAmount), '\n'))
  {
    HeaderLine();
    var lines := [Join(HeaderFields, ',')] + Rows(ts, showDate, showAmount);
    assert lines[1..] == Rows(ts, showDate, showAmount);
  }

  /** An empty store exports the header only. */
  lemma CsvEmpty(showDate: int -> string, showAmount: real -> string)
    ensures CsvContent([], showDate, showAmount) == CsvPrefix + "ID,Date,Type,Description,Category,Amount"
  {
    HeaderLine();
    var h := Join(HeaderFields, ',');
    assert [h] + Rows([], showDate, showAmount) == [h];
  }

  lemma HeaderLineHasNoNewline()
    ensures '\n' !in CsvPrefix + Join(HeaderFields, ',')
  {
    assert '\n' !in CsvPrefix;
    assert forall i :: 0 <= i < |HeaderFields| ==> '\n' !in HeaderFields[i];
    JoinAvoids(HeaderFields, ',', '\n');
  }

  /**
   * When no cell holds a newline, the lines of the text are the prefixed header
   * and then exactly one row per transaction, in store order.
   */
  lemma CsvLines(ts: seq<Transaction>, showDate: int -> string, showAmount: real -> string)
    requires forall i :: 0 <= i < |ts| ==> '\n' !in Row(ts[i], showDate, showAmount)
    ensures var lines := Split(CsvContent(ts, showDate, showAmount), '\n');
      && |lines| == |ts| + 1
      && lines[0] == CsvPrefix + "ID,Date,Type,Description,Category,Amount"
      && forall i :: 0 <= i < |ts| ==> lines[i + 1] == Row(ts[i], showDate, showAmount)
  {
    HeaderLine();
    var header := Join(HeaderFields, ',');
    var rows := Rows(ts, showDate, showAmount);
    var fs := [header] + rows;
    var gs := [CsvPrefix + header] + rows;
    JoinPrefix(CsvPrefix, fs, '\n');
    assert fs[1..] == rows;
    HeaderLineHasNoNewline();
    assert forall i :: 0 <= i < |gs| ==> '\n' !in gs[i] by {
      forall i | 0 <= i < |gs| ensures '\n' !in gs[i] {
        if i > 0 { assert gs[i] == rows[i - 1]; }
      }
    }
    SplitJoin(gs, '\n');
  }

  /** A row splits back into its six cells when no cell holds a comma. */
  lemma RowRoundTrip(t: Transaction, showDate: int -> string, showAmount: real -> string)
    requires forall i :: 0 <= i < 6 ==> ',' !in RowFields(t, showDate, showAmount)[i]
    ensures Split(Row(t, showDate, showAmount), ',') == RowFields(t, showDate, showAmount)
  {
    SplitJoin(RowFields(t, showDate, showAmount), ',');
  }

  /** Without quoting, every comma inside a cell adds one more field to the row. */
  lemma RowFieldCount(t: Transaction, showDate: int -> string, showAmount: real -> string)
    ensures |Split(Row(t, showDate, showAmount), ',')| == 6 + CountAll(RowFields(t, showDate, showAmount), ',')
  {
    CountJoin(RowFields(t, showDate, showAmount), ',');
  }

  /** So a description with a comma in it makes a row of more than six fields. */
  lemma CommaInDescriptionSplitsRow(t: Transaction, showDate: int -> string, showAmount: real -> string)
    requires ',' in t.description
    ensures |Split(Row(t, showDate, showAmount), ',')| > 6
  {
    RowFieldCount(t, showDate, showAmount);
    var fs := RowFields(t, showDate, showAmount);
    CountPositive(t.description, ',');
    CountAllAtLeast(fs, 3, ',');
  }

  // ---------------------------------------------------------------------
  // Monthly breakdown
  // ---------------------------------------------------------------------

  /**
   * `monthlyBreakdown` before its sort: the same accumulation as the dashboard's
   * monthly data, whose `expenses` column takes every non-Income transaction.
   */
  method MonthlyBreakdown(ts: seq<Transaction>, monthOf: int -> string) returns (r: seq<Dashboard.MonthBucket>)
    ensures r == Dashboard.MonthBuckets(ts, monthOf)
    ensures forall k ::
      Dashboard.BucketOf(r, k) == Dashboard.MonthBucket(k, Dashboard.MonthTotal(ts, monthOf, k, Income), Dashboard.MonthTotal(ts, monthOf, k, Expense))
    ensures Dashboard.IncomeTotal(r) == Sum(OfType(ts, Income))
    ensures Dashboard.ExpenseTotal(r) == Sum(ts) - Sum(OfType(ts, Income))
  {
    var data: seq<Dashboard.MonthBucket> := [];
    for i := 0 to |ts|
      invariant data == Dashboard.MonthBuckets(ts[..i], monthOf)
    {
      assert ts[..i + 1][..i] == ts[..i];
      data := Dashboard.AddToMonth(data, monthOf(ts[i].date), ts[i]);
    }
    assert ts[..|ts|] == ts;
    forall k {
      Dashboard.MonthBucketValues(ts, monthOf, k);
    }
    Dashboard.MonthBucketTotals(ts, monthOf);
    TypesPartitionSum(ts);
    r := data;
  }
}
