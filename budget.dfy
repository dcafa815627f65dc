/** The "Set Budget" page of main.py: the budget suggested for a category
    from its recent spending, and the share of each budget used in the
    current month. Amounts are cents; budgets, the suggestion and the usage
    percentages are reals. "Today" and the start of the recent window are
    parameters. */
module Budget {
  import opened Dates
  import opened Expenses

  // ---------------------------------------------------------------------
  // suggest_budget (main.py:100-112)
  // ---------------------------------------------------------------------

  /** The records of `category` dated on or after `start`. There is no upper
      bound: a record dated after today is recent too. */
  function Recent(records: seq<Expense>, category: string, start: Date): seq<Expense> {
    Where(records, (e: Expense) => e.category == category && OnOrAfter(e.date, start))
  }

  /** 110% of the mean amount of the recent records of `category`, and 0.0
      when there are none (the mean of an empty column is NaN). */
  function SuggestBudget(records: seq<Expense>, category: string, start: Date): real {
    var recent := Recent(records, category, start);
    if recent == [] then 0.0 else (11.0 / 10.0) * ((Total(recent) as real) / (|recent| as real))
  }

  /** A record is recent exactly when it is of the category and dated on or
      after the start, and it is kept as often as it occurs. */
  lemma RecentContents(records: seq<Expense>, category: string, start: Date)
    ensures forall e :: multiset(Recent(records, category, start))[e]
                        == if e.category == category && OnOrAfter(e.date, start) then multiset(records)[e] else 0
  {
    WhereContents(records, (e: Expense) => e.category == category && OnOrAfter(e.date, start));
  }

  /** One more record joins the recent records exactly when it is of the
      category and not dated before the start, however late it is dated. */
  lemma RecentAppend(records: seq<Expense>, e: Expense, category: string, start: Date)
    ensures Recent(records + [e], category, start)
            == Recent(records, category, start) + (if e.category == category && OnOrAfter(e.date, start) then [e] else [])
  {
    var keep := (x: Expense) => x.category == category && OnOrAfter(x.date, start);
    WhereAppend(records, [e], keep);
    assert [e][1..] == [];
  }

  /** No record of the category on or after the start: the suggestion is 0. */
  lemma SuggestBudgetNoneRecent(records: seq<Expense>, category: string, start: Date)
    requires forall i :: 0 <= i < |records| ==> records[i].category != category || Before(records[i].date, start)
    ensures SuggestBudget(records, category, start) == 0.0
  {
    var recent := Recent(records, category, start);
    RecentContents(records, category, start);
    forall e ensures multiset(recent)[e] == 0 {
      if e in multiset(records) {
        var j :| 0 <= j < |records| && records[j] == e;
      }
    }
    assert multiset(recent) == multiset{};
  }

  /** A recent record makes the recent selection non-empty. */
  lemma RecentNonEmpty(records: seq<Expense>, category: string, start: Date, i: int)
    requires 0 <= i < |records| && records[i].category == category && OnOrAfter(records[i].date, start)
    ensures |Recent(records, category, start)| > 0
  {
    RecentContents(records, category, start);
    assert records[i] in multiset(records);
    assert multiset(Recent(records, category, start))[records[i]] > 0;
  }

  lemma ScaledMeanTimesCount(t: real, n: real)
    requires n > 0.0
    ensures (11.0 / 10.0) * (t / n) * n == (11.0 / 10.0) * t
  {
    assert (t / n) * n == t;
  }

  lemma ScaledMeanBounds(t: int, n: int, lo: int, hi: int)
    requires n > 0 && lo * n <= t <= hi * n
    ensures (11.0 / 10.0) * (lo as real) <= (11.0 / 10.0) * ((t as real) / (n as real)) <= (11.0 / 10.0) * (hi as real)
  {
    var q := (t as real) / (n as real);
    assert q * (n as real) == t as real;
    assert (lo as real) * (n as real) <= q * (n as real);
    assert q * (n as real) <= (hi as real) * (n as real);
  }

  /** Otherwise the suggestion times the number of recent records is 110%
      of their total. */
  lemma SuggestBudgetIsScaledMean(records: seq<Expense>, category: string, start: Date, i: int)
    requires 0 <= i < |records| && records[i].category == category && OnOrAfter(records[i].date, start)
    ensures var recent := Recent(records, category, start);
            && |recent| > 0
            && SuggestBudget(records, category, start) * (|recent| as real) == (11.0 / 10.0) * (Total(recent) as real)
  {
    var recent := Recent(records, category, start);
    RecentNonEmpty(records, category, start, i);
    ScaledMeanTimesCount(Total(recent) as real, |recent| as real);
  }

  /** Two dinners of $100 and $50 in the window suggest $82.50. */
  lemma SuggestBudgetExample()
    ensures var records := [Expense("Dinner", "Dining", 10000, Date(2024, 1, 5)),
                            Expense("Lunch", "Dining", 5000, Date(2023, 12, 20))];
            SuggestBudget(records, "Dining", Date(2023, 10, 10)) == 8250.0
  {
    var a := Expense("Dinner", "Dining", 10000, Date(2024, 1, 5));
    var b := Expense("Lunch", "Dining", 5000, Date(2023, 12, 20));
    RecentAppend([a], b, "Dining", Date(2023, 10, 10));
    RecentAppend([], a, "Dining", Date(2023, 10, 10));
    assert [] + [a] == [a];
    assert [a] + [b] == [a, b];
    assert Recent([a, b], "Dining", Date(2023, 10, 10)) == [a, b];
    TotalAppend([a], [b]);
    assert Total([a]) == 10000 && Total([b]) == 5000 by {
      assert [a][1..] == [] && [b][1..] == [];
    }
  }

  /** Bounds on the amounts bound the total. */
  lemma {:induction false} TotalBounds(rs: seq<Expense>, lo: int, hi: int)
    requires forall k :: 0 <= k < |rs| ==> lo <= rs[k].amount <= hi
    ensures lo * |rs| <= Total(rs) <= hi * |rs|
    decreases |rs|
  {
    if rs != [] {
      TotalBounds(rs[1..], lo, hi);
    }
  }

  /** The suggestion lies between 110% of the smallest and 110% of the
      largest recent amount. */
  lemma SuggestBudgetBounds(records: seq<Expense>, category: string, start: Date, lo: int, hi: int, i: int)
    requires 0 <= i < |records| && records[i].category == category && OnOrAfter(records[i].date, start)
    requires forall k :: 0 <= k < |records| && records[k].category == category && OnOrAfter(records[k].date, start)
                         ==> lo <= records[k].amount <= hi
    ensures (11.0 / 10.0) * (lo as real) <= SuggestBudget(records, category, start) <= (11.0 / 10.0) * (hi as real)
  {
    var recent := Recent(records, category, start);
    RecentNonEmpty(records, category, start, i);
    RecentAmountsBounded(records, category, start, lo, hi);
    TotalBounds(recent, lo, hi);
    ScaledMeanBounds(Total(recent), |recent|, lo, hi);
  }

  lemma RecentAmountsBounded(records: seq<Expense>, category: string, start: Date, lo: int, hi: int)
    requires forall k :: 0 <= k < |records| && records[k].category == category && OnOrAfter(records[k].date, start)
                         ==> lo <= records[k].amount <= hi
    ensures forall k :: 0 <= k < |Recent(records, category, start)| ==> lo <= Recent(records, category, start)[k].amount <= hi
  {
    var recent := Recent(records, category, start);
    RecentContents(records, category, start);
    forall k | 0 <= k < |recent| ensures lo <= recent[k].amount <= hi {
      assert multiset(recent)[recent[k]] > 0;
      assert recent[k] in multiset(records);
      var j :| 0 <= j < |records| && records[j] == recent[k];
    }
  }

  // ---------------------------------------------------------------------
  // Budget usage (main.py:87-91)
  // ---------------------------------------------------------------------

  /** `category_budgets.get(category, 1)`: a category without a budget has
      a budget of one dollar. */
  function BudgetFor(budgets: map<string, real>, category: string): real {
    if category in budgets then budgets[category] else 100.0
  }

  /** Spending as a percentage of a budget. */
  function Percent(spent: int, budget: real): real
    requires budget != 0.0
  {
    (spent as real) / budget * 100.0
  }

  /** `expense_data[expense_data['Date'].dt.month == month]`: the month
      number alone decides, whatever the year. */
  function InMonthNumber(records: seq<Expense>, month: int): seq<Expense> {
    Where(records, (e: Expense) => e.date.month == month)
  }

  /** One entry of `budget_usage` as written: the category's spending in
      every month numbered like today's, as a percentage of its budget. */
  function BudgetUsage(records: seq<Expense>, budgets: map<string, real>, category: string, today: Date): (u: real)
    requires BudgetFor(budgets, category) != 0.0
    ensures u * BudgetFor(budgets, category) == 100.0 * (CategoryTotal(InMonthNumber(records, today.month), category) as real)
  {
    Percent(CategoryTotal(InMonthNumber(records, today.month), category), BudgetFor(budgets, category))
  }

  /** The records of today's month of today's year. */
  function InCurrentMonth(records: seq<Expense>, today: Date): seq<Expense> {
    Where(records, (e: Expense) => e.date.year == today.year && e.date.month == today.month)
  }

  /** One entry of `budget_usage` as intended: the category's spending in
      the current month, as a percentage of its budget. */
  function CurrentMonthUsage(records: seq<Expense>, budgets: map<string, real>, category: string, today: Date): (u: real)
    requires BudgetFor(budgets, category) != 0.0
    ensures u * BudgetFor(budgets, category) == 100.0 * (CategoryTotal(InCurrentMonth(records, today), category) as real)
  {
    Percent(CategoryTotal(InCurrentMonth(records, today), category), BudgetFor(budgets, category))
  }

  /** `budget_usage` as written: one entry per category in use, each the
      month-number usage of that category. */
  function BudgetUsageTable(records: seq<Expense>, budgets: map<string, real>, today: Date): (t: map<string, real>)
    requires forall c :: c in Categories(records) ==> BudgetFor(budgets, c) != 0.0
    ensures t.Keys == Categories(records)
    ensures forall c :: c in t ==> t[c] == BudgetUsage(records, budgets, c, today)
  {
    map c | c in Categories(records) :: BudgetUsage(records, budgets, c, today)
  }

  /** `budget_usage` as intended: one entry per category in use, each the
      usage of that category in the current year and month. */
  function CurrentMonthUsageTable(records: seq<Expense>, budgets: map<string, real>, today: Date): (t: map<string, real>)
    requires forall c :: c in Categories(records) ==> BudgetFor(budgets, c) != 0.0
    ensures t.Keys == Categories(records)
    ensures forall c :: c in t ==> t[c] == CurrentMonthUsage(records, budgets, c, today)
  {
    map c | c in Categories(records) :: CurrentMonthUsage(records, budgets, c, today)
  }

  /** A category without a budget reports its spending in cents, whether the
      usage is taken as written or as intended. */
  lemma UsageScale(records: seq<Expense>, budgets: map<string, real>, category: string, today: Date)
    requires category !in budgets
    ensures BudgetUsage(records, budgets, category, today) == CategoryTotal(InMonthNumber(records, today.month), category) as real
    ensures CurrentMonthUsage(records, budgets, category, today) == CategoryTotal(InCurrentMonth(records, today), category) as real
  {
  }

  /** The as-written table and the corrected one agree when every record of
      today's month number lies in today's year. */
  lemma {:induction false} TablesAgreeWithinOneYear(records: seq<Expense>, budgets: map<string, real>, today: Date)
    requires forall c :: c in Categories(records) ==> BudgetFor(budgets, c) != 0.0
    requires forall k :: 0 <= k < |records| && records[k].date.month == today.month ==> records[k].date.year == today.year
    ensures BudgetUsageTable(records, budgets, today) == CurrentMonthUsageTable(records, budgets, today)
  {
    SameSelection(records, today);
  }

  /** Under the same condition the two filters keep the same records. */
  lemma {:induction false} SameSelection(records: seq<Expense>, today: Date)
    requires forall k :: 0 <= k < |records| && records[k].date.month == today.month ==> records[k].date.year == today.year
    ensures InMonthNumber(records, today.month) == InCurrentMonth(records, today)
    decreases |records|
  {
    if records != [] {
      SameSelection(records[1..], today);
    }
  }

  /** The amount of `category` that `e` adds to a selection that may or may
      not keep it. */
  function Share(e: Expense, category: string, kept: bool): int {
    if kept && e.category == category then e.amount else 0
  }

  lemma CategoryTotalAppend(records: seq<Expense>, e: Expense, category: string)
    ensures CategoryTotal(records + [e], category) == CategoryTotal(records, category) + Share(e, category, true)
  {
    var keep := (x: Expense) => x.category == category;
    WhereAppend(records, [e], keep);
    assert [e][1..] == [];
    TotalAppend(Where(records, keep), Where([e], keep));
  }

  /** As intended, a record of another month or another year leaves the
      usage alone, and a record of the current month adds its amount. */
  lemma CurrentMonthUsageAppend(records: seq<Expense>, budgets: map<string, real>, category: string, today: Date, e: Expense)
    requires BudgetFor(budgets, category) != 0.0
    ensures var inMonth := e.date.year == today.year && e.date.month == today.month;
            CurrentMonthUsage(records + [e], budgets, category, today)
            == Percent(CategoryTotal(InCurrentMonth(records, today), category) + Share(e, category, inMonth),
                       BudgetFor(budgets, category))
  {
    var keep := (x: Expense) => x.date.year == today.year && x.date.month == today.month;
    WhereAppend(records, [e], keep);
    assert [e][1..] == [];
    var sel := InCurrentMonth(records, today);
    if keep(e) {
      assert InCurrentMonth(records + [e], today) == sel + [e];
      CategoryTotalAppend(sel, e, category);
    } else {
      assert InCurrentMonth(records + [e], today) == sel;
    }
  }

  /** As written, a record of another month number or another category
      leaves the usage alone, and a record of today's month number and the
      category adds its amount, whatever its year. */
  lemma BudgetUsageAppend(records: seq<Expense>, budgets: map<string, real>, category: string, today: Date, e: Expense)
    requires BudgetFor(budgets, category) != 0.0
    ensures BudgetUsage(records + [e], budgets, category, today)
            == Percent(CategoryTotal(InMonthNumber(records, today.month), category) + Share(e, category, e.date.month == today.month),
                       BudgetFor(budgets, category))
  {
    var keep := (x: Expense) => x.date.month == today.month;
    WhereAppend(records, [e], keep);
    assert [e][1..] == [];
    var sel := InMonthNumber(records, today.month);
    if keep(e) {
      assert InMonthNumber(records + [e], today.month) == sel + [e];
      CategoryTotalAppend(sel, e, category);
    } else {
      assert InMonthNumber(records + [e], today.month) == sel;
    }
  }

  /** As written, a record of today's month number in another year still
      adds its amount to the usage. */
  lemma BudgetUsageCountsOtherYears(records: seq<Expense>, budgets: map<string, real>, category: string, today: Date, e: Expense)
    requires BudgetFor(budgets, category) != 0.0
    requires e.category == category && e.date.month == today.month
    ensures BudgetUsage(records + [e], budgets, category, today)
            == Percent(CategoryTotal(InMonthNumber(records, today.month), category) + e.amount, BudgetFor(budgets, category))
  {
    var keep := (x: Expense) => x.date.month == today.month;
    WhereAppend(records, [e], keep);
    assert [e][1..] == [];
    assert InMonthNumber(records + [e], today.month) == InMonthNumber(records, today.month) + [e];
    CategoryTotalAppend(InMonthNumber(records, today.month), e, category);
  }

  /** A concrete case: a $40 dinner of October 2023 shows as 40% of a $100
      dining budget in October 2024, where the current month holds no
      dining at all. */
  lemma BudgetUsageLastYearExample()
    ensures var dinner := Expense("Dinner", "Dining", 4000, Date(2023, 10, 5));
            var budgets := map["Dining" := 10000.0];
            && BudgetUsage([dinner], budgets, "Dining", Date(2024, 10, 16)) == 40.0
            && CurrentMonthUsage([dinner], budgets, "Dining", Date(2024, 10, 16)) == 0.0
            && BudgetUsageTable([dinner], budgets, Date(2024, 10, 16))["Dining"] == 40.0
            && CurrentMonthUsageTable([dinner], budgets, Date(2024, 10, 16))["Dining"] == 0.0
  {
    var dinner := Expense("Dinner", "Dining", 4000, Date(2023, 10, 5));
    var budgets := map["Dining" := 10000.0];
    var today := Date(2024, 10, 16);
    BudgetUsageCountsOtherYears([], budgets, "Dining", today, dinner);
    CurrentMonthUsageAppend([], budgets, "Dining", today, dinner);
    assert [] + [dinner] == [dinner];
    assert [dinner][0].category == "Dining";
    assert Categories([dinner]) == {"Dining"};
  }
}
