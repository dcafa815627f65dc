/** The expense store of main.py: the global `expense_data` table, held as a
    sequence of records that the page handlers append to, rename in and
    filter. Amounts are in cents. */
module Expenses {
  import opened Options
  import opened Dates
  import opened ReceiptParser

  /** One row of `expense_data` (columns Description, Category, Amount, Date). */
  datatype Expense = Expense(description: string, category: string, amount: int, date: Date)

  /** The sum of the amounts. */
  function Total(records: seq<Expense>): int
    decreases |records|
  {
    if records == [] then 0 else records[0].amount + Total(records[1..])
  }

  lemma {:induction false} TotalAppend(a: seq<Expense>, b: seq<Expense>)
    ensures Total(a + b) == Total(a) + Total(b)
    decreases |a|
  {
    if a == [] {
      assert a + b == b;
    } else {
      assert (a + b)[1..] == a[1..] + b;
      TotalAppend(a[1..], b);
    }
  }

  /** A boolean-mask selection `data[mask]`: the records `keep` accepts. */
  function Where(records: seq<Expense>, keep: Expense -> bool): seq<Expense>
    decreases |records|
  {
    if records == [] then []
    else (if keep(records[0]) then [records[0]] else []) + Where(records[1..], keep)
  }

  /** A selection keeps each accepted record as often as it occurred and
      drops every other one. */
  lemma {:induction false} WhereContents(records: seq<Expense>, keep: Expense -> bool)
    ensures forall e :: multiset(Where(records, keep))[e] == if keep(e) then multiset(records)[e] else 0
    decreases |records|
  {
    if records != [] {
      WhereContents(records[1..], keep);
      assert records == [records[0]] + records[1..];
    }
  }

  /** Selecting from a concatenation selects from each part: the kept
      records stay in their original order. */
  lemma {:induction false} WhereAppend(a: seq<Expense>, b: seq<Expense>, keep: Expense -> bool)
    ensures Where(a + b, keep) == Where(a, keep) + Where(b, keep)
    decreases |a|
  {
    if a == [] {
      assert a + b == b;
    } else {
      var head := if keep(a[0]) then [a[0]] else [];
      assert (a + b)[0] == a[0];
      assert (a + b)[1..] == a[1..] + b;
      WhereAppend(a[1..], b, keep);
      var rest, wb := Where(a[1..], keep), Where(b, keep);
      assert Where(a + b, keep) == head + (rest + wb);
      assert Where(a, keep) == head + rest;
      assert head + (rest + wb) == (head + rest) + wb;
    }
  }

  /** `data.groupby('Category')['Amount'].sum().get(category, 0)`. */
  function CategoryTotal(records: seq<Expense>, category: string): int {
    Total(Where(records, (e: Expense) => e.category == category))
  }

  /** The categories in use (`pd.unique(expense_data['Category'])` as a set). */
  function Categories(records: seq<Expense>): set<string> {
    set i | 0 <= i < |records| :: records[i].category
  }

  // ---------------------------------------------------------------------
  // Delete: expense_data[expense_data["Category"] != selected]
  // ---------------------------------------------------------------------

  /** The records whose category differs from `category`. */
  function Without(records: seq<Expense>, category: string): seq<Expense> {
    Where(records, (e: Expense) => e.category != category)
  }

  /** After a delete the total drops by exactly the deleted category's total. */
  lemma {:induction false} TotalWithout(records: seq<Expense>, category: string)
    ensures Total(Without(records, category)) == Total(records) - CategoryTotal(records, category)
    decreases |records|
  {
    if records != [] {
      TotalWithout(records[1..], category);
      var e := records[0];
      TotalAppend(if e.category != category then [e] else [], Without(records[1..], category));
      TotalAppend(if e.category == category then [e] else [], Where(records[1..], (e: Expense) => e.category == category));
    }
  }

  // ---------------------------------------------------------------------
  // Rename: expense_data.loc[expense_data["Category"] == selected, "Category"] = new_name
  // ---------------------------------------------------------------------

  /** Every record of category `selected` moves to `newName`; length, order
      and all other fields stay as they were. */
  function Renamed(records: seq<Expense>, selected: string, newName: string): (r: seq<Expense>)
    ensures |r| == |records|
    ensures forall i :: 0 <= i < |records| ==>
              r[i] == if records[i].category == selected then records[i].(category := newName) else records[i]
    decreases |records|
  {
    if records == [] then []
    else
      var e := records[0];
      [if e.category == selected then e.(category := newName) else e] + Renamed(records[1..], selected, newName)
  }

  /** A rename leaves the total alone. */
  lemma {:induction false} TotalRenamed(records: seq<Expense>, selected: string, newName: string)
    ensures Total(Renamed(records, selected, newName)) == Total(records)
    decreases |records|
  {
    if records != [] {
      TotalRenamed(records[1..], selected, newName);
      assert Renamed(records, selected, newName)[1..] == Renamed(records[1..], selected, newName);
    }
  }

  /** After a rename of a category in use, `selected` is gone (unless it is
      the new name) and `newName` is in use; the other categories stay. */
  lemma CategoriesRenamed(records: seq<Expense>, selected: string, newName: string)
    requires selected in Categories(records)
    ensures Categories(Renamed(records, selected, newName)) == Categories(records) - {selected} + {newName}
  {
    var r := Renamed(records, selected, newName);
    forall c ensures c in Categories(r) <==> c in Categories(records) - {selected} + {newName} {
      if c in Categories(r) {
        var i :| 0 <= i < |r| && r[i].category == c;
        assert records[i].category == c || c == newName;
      }
      if c in Categories(records) - {selected} {
        var i :| 0 <= i < |records| && records[i].category == c;
        assert r[i].category == c;
      }
      if c == newName {
        var i :| 0 <= i < |records| && records[i].category == selected;
        assert r[i].category == newName;
      }
    }
  }

  // ---------------------------------------------------------------------
  // Receipt import (main.py:235-237)
  // ---------------------------------------------------------------------

  /** The records `zip(descriptions, amounts)` yields, each in the category
      "Groceries" and dated on the receipt date: as many as the shorter
      list, paired by position. */
  function ReceiptRecords(descriptions: seq<string>, amounts: seq<int>, date: Date): (r: seq<Expense>)
    ensures |r| == if |descriptions| < |amounts| then |descriptions| else |amounts|
    ensures forall i :: 0 <= i < |r| ==> r[i] == Expense(descriptions[i], "Groceries", amounts[i], date)
    decreases |descriptions|
  {
    if descriptions == [] || amounts == [] then []
    else [Expense(descriptions[0], "Groceries", amounts[0], date)]
         + ReceiptRecords(descriptions[1..], amounts[1..], date)
  }

  /** The table the page handlers work on. */
  class ExpenseStore {
    var records: seq<Expense>

    /** The table as loaded (the empty table when there is nothing to load). */
    constructor (initial: seq<Expense>)
      ensures records == initial
    {
      records := initial;
    }

    /** `add_expense`: one new row at the end. */
    method AddExpense(description: string, category: string, amount: int, date: Date)
      modifies this
      ensures records == old(records) + [Expense(description, category, amount, date)]
    {
      records := records + [Expense(description, category, amount, date)];
    }

    /** The "Edit Category" handler: an empty new name changes nothing. */
    method RenameCategory(selected: string, newName: string)
      modifies this
      ensures records == if newName == "" then old(records) else Renamed(old(records), selected, newName)
    {
      if newName != "" {
        records := Renamed(records, selected, newName);
      }
    }

    /** The "Delete Category" handler. */
    method DeleteCategory(selected: string)
      modifies this
      ensures records == Without(old(records), selected)
    {
      records := Without(records, selected);
    }

    /** The import rule of the "Upload Receipt" page: only when there are
        descriptions, amounts and a date, each `zip` pair is added in turn
        with `add_expense`, in category "Groceries" on the receipt date. */
    method ImportItems(descriptions: seq<string>, amounts: seq<int>, date: Option<Date>) returns (imported: bool)
      modifies this
      ensures imported <==> descriptions != [] && amounts != [] && date.Some?
      ensures imported ==> records == old(records) + ReceiptRecords(descriptions, amounts, date.value)
      ensures !imported ==> records == old(records)
    {
      imported := descriptions != [] && amounts != [] && date.Some?;
      if imported {
        var n := if |descriptions| < |amounts| then |descriptions| else |amounts|;
        var pairs := ReceiptRecords(descriptions, amounts, date.value);
        for i := 0 to n
          invariant records == old(records) + pairs[..i]
        {
          AddExpense(descriptions[i], "Groceries", amounts[i], date.value);
          assert pairs[..i + 1] == pairs[..i] + [pairs[i]];
        }
        assert pairs[..n] == pairs;
      }
    }
  }

  /** The "Upload Receipt" page once the OCR text is in: parse it (which may
      raise on a bad date) and import what was found. */
  method UploadReceipt(store: ExpenseStore, extractedText: string) returns (imported: bool)
    modifies store
    ensures var parsed := ParsedReceipt(extractedText);
            && (imported <==> parsed.Ok? && parsed.value.descriptions != [] && parsed.value.amounts != [] && parsed.value.date.Some?)
            && store.records == old(store.records)
                                + (if imported then ReceiptRecords(parsed.value.descriptions, parsed.value.amounts, parsed.value.date.value) else [])
  {
    var parsed := ParseExtractedText(extractedText);
    imported := false;
    if parsed.Ok? {
      imported := store.ImportItems(parsed.value.descriptions, parsed.value.amounts, parsed.value.date);
    }
  }
}
