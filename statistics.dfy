/** The monthly and yearly parts of `calculate_expense_statistics`: the
    records grouped by (year, month) or by year, one amount sum per group,
    the groups in ascending key order and the keys themselves dropped. */
module Statistics {
  import opened Dates
  import opened Expenses

  datatype Period = Monthly | Yearly

  /** The group key of a date as one integer. For months it is
      `year * 12 + (month - 1)`, whose order is the lexicographic order of
      the pandas key `(year, month)` (see `MonthKeyOrder`). */
  function PeriodKey(period: Period, d: Date): int {
    match period
    case Monthly => d.year * 12 + (d.month - 1)
    case Yearly => d.year
  }

  /** For months 1 to 12 the month key orders and identifies dates exactly
      as the pair (year, month) does. */
  lemma MonthKeyOrder(a: Date, b: Date)
    requires 1 <= a.month <= 12 && 1 <= b.month <= 12
    ensures PeriodKey(Monthly, a) < PeriodKey(Monthly, b)
            <==> a.year < b.year || (a.year == b.year && a.month < b.month)
    ensures PeriodKey(Monthly, a) == PeriodKey(Monthly, b)
            <==> a.year == b.year && a.month == b.month
  {
    if a.year < b.year {
      assert a.year * 12 + 12 <= b.year * 12;
    } else if a.year > b.year {
      assert b.year * 12 + 12 <= a.year * 12;
    }
  }

  /** The records that fall into group `key`. */
  function InGroup(records: seq<Expense>, period: Period, key: int): seq<Expense> {
    Where(records, (e: Expense) => PeriodKey(period, e.date) == key)
  }

  /** The amount sum of group `key`. */
  function GroupTotal(records: seq<Expense>, period: Period, key: int): int {
    Total(InGroup(records, period, key))
  }

  /** The keys that occur in the records. */
  function KeySet(records: seq<Expense>, period: Period): set<int>
    decreases |records|
  {
    if records == [] then {} else {PeriodKey(period, records[0].date)} + KeySet(records[1..], period)
  }

  /** A key occurs exactly when some record has it. */
  lemma {:induction false} KeySetMembers(records: seq<Expense>, period: Period)
    ensures forall k :: k in KeySet(records, period)
                        <==> exists i :: 0 <= i < |records| && PeriodKey(period, records[i].date) == k
    decreases |records|
  {
    if records != [] {
      KeySetMembers(records[1..], period);
      forall k | k in KeySet(records[1..], period)
        ensures exists i :: 0 <= i < |records| && PeriodKey(period, records[i].date) == k
      {
        var j :| 0 <= j < |records[1..]| && PeriodKey(period, records[1..][j].date) == k;
        assert records[j + 1] == records[1..][j];
      }
      forall k, i | 0 <= i < |records| && PeriodKey(period, records[i].date) == k
        ensures k in KeySet(records, period)
      {
        if i > 0 {
          assert records[1..][i - 1] == records[i];
        }
      }
    }
  }

  predicate StrictlyIncreasing(ks: seq<int>) {
    forall i, j :: 0 <= i < j < |ks| ==> ks[i] < ks[j]
  }

  /** Inserts `k` into an ascending key list, once. */
  function InsertKey(k: int, ks: seq<int>): (r: seq<int>)
    requires StrictlyIncreasing(ks)
    ensures StrictlyIncreasing(r)
    ensures forall x :: x in r <==> x == k || x in ks
    decreases |ks|
  {
    if ks == [] then [k]
    else if k < ks[0] then
      ConsIncreasing(k, ks);
      [k] + ks
    else if k == ks[0] then ks
    else
      var rest := InsertKey(k, ks[1..]);
      ConsIncreasing(ks[0], rest);
      [ks[0]] + rest
  }

  /** A key below every key of an ascending list can go in front of it. */
  lemma ConsIncreasing(h: int, t: seq<int>)
    requires StrictlyIncreasing(t)
    requires forall x :: x in t ==> h < x
    ensures StrictlyIncreasing([h] + t)
  {
    var r := [h] + t;
    forall i, j | 0 <= i < j < |r| ensures r[i] < r[j] {
      assert r[j] == t[j - 1];
      assert t[j - 1] in t;
      if i > 0 {
        assert r[i] == t[i - 1];
      }
    }
  }

  /** The group keys in the order `groupby` sorts them. */
  function GroupKeys(records: seq<Expense>, period: Period): (ks: seq<int>)
    ensures StrictlyIncreasing(ks)
    ensures forall k :: k in ks <==> k in KeySet(records, period)
    decreases |records|
  {
    if records == [] then [] else InsertKey(PeriodKey(period, records[0].date), GroupKeys(records[1..], period))
  }

  /** The group sums for the keys `ks`, in the order of `ks`. */
  function TotalsFor(records: seq<Expense>, period: Period, ks: seq<int>): (sums: seq<int>)
    ensures |sums| == |ks|
    ensures forall i :: 0 <= i < |ks| ==> sums[i] == GroupTotal(records, period, ks[i])
    decreases |ks|
  {
    if ks == [] then [] else [GroupTotal(records, period, ks[0])] + TotalsFor(records, period, ks[1..])
  }

  /** `groupby(...)['Amount'].sum().reset_index(drop=True)`. */
  function GroupSums(records: seq<Expense>, period: Period): seq<int> {
    TotalsFor(records, period, GroupKeys(records, period))
  }

  /** `monthly_expenses`: grouped by (year, month). */
  function MonthlyExpenses(records: seq<Expense>): (sums: seq<int>)
    ensures |sums| == |GroupKeys(records, Monthly)|
    ensures forall i :: 0 <= i < |sums| ==> sums[i] == GroupTotal(records, Monthly, GroupKeys(records, Monthly)[i])
  {
    GroupSums(records, Monthly)
  }

  /** `yearly_expenses`: grouped by year. */
  function YearlyExpenses(records: seq<Expense>): (sums: seq<int>)
    ensures |sums| == |GroupKeys(records, Yearly)|
    ensures forall i :: 0 <= i < |sums| ==> sums[i] == GroupTotal(records, Yearly, GroupKeys(records, Yearly)[i])
  {
    GroupSums(records, Yearly)
  }

  function Sum(xs: seq<int>): int
    decreases |xs|
  {
    if xs == [] then 0 else xs[0] + Sum(xs[1..])
  }

  /** The i-th sum belongs to the i-th distinct key in ascending order: there
      is one sum per key that occurs, and no sum for a key that does not. */
  lemma GroupSumsByKey(records: seq<Expense>, period: Period)
    ensures var ks := GroupKeys(records, period);
            && StrictlyIncreasing(ks)
            && (forall k :: k in ks <==> exists i :: 0 <= i < |records| && PeriodKey(period, records[i].date) == k)
            && |GroupSums(records, period)| == |ks|
            && (forall i :: 0 <= i < |ks| ==> GroupSums(records, period)[i] == GroupTotal(records, period, ks[i]))
  {
    KeySetMembers(records, period);
  }

  /** For records with valid months, the monthly group of a date's key holds
      exactly the records of that date's year and month. */
  lemma {:induction false} MonthlyGroupIsYearMonth(records: seq<Expense>, d: Date)
    requires 1 <= d.month <= 12
    requires forall k :: 0 <= k < |records| ==> 1 <= records[k].date.month <= 12
    ensures InGroup(records, Monthly, PeriodKey(Monthly, d))
            == Where(records, (e: Expense) => e.date.year == d.year && e.date.month == d.month)
    decreases |records|
  {
    if records != [] {
      MonthKeyOrder(records[0].date, d);
      MonthlyGroupIsYearMonth(records[1..], d);
    }
  }

  // ---------------------------------------------------------------------
  // The sums add up to the total
  // ---------------------------------------------------------------------

  /** How much `e` adds to the sums for the keys `ks`. */
  function Hits(e: Expense, period: Period, ks: seq<int>): int
    decreases |ks|
  {
    if ks == [] then 0 else (if ks[0] == PeriodKey(period, e.date) then e.amount else 0) + Hits(e, period, ks[1..])
  }

  /** Distinct keys: `e` lands in exactly one group when its key is listed. */
  lemma {:induction false} HitsOnce(e: Expense, period: Period, ks: seq<int>)
    requires StrictlyIncreasing(ks)
    ensures Hits(e, period, ks) == if PeriodKey(period, e.date) in ks then e.amount else 0
    decreases |ks|
  {
    if ks != [] {
      HitsOnce(e, period, ks[1..]);
      if ks[0] == PeriodKey(period, e.date) {
        assert PeriodKey(period, e.date) !in ks[1..];
      }
    }
  }

  /** Adding one record in front adds its share to the sums. */
  lemma {:induction false} SumTotalsCons(e: Expense, rest: seq<Expense>, period: Period, ks: seq<int>)
    ensures Sum(TotalsFor([e] + rest, period, ks)) == Hits(e, period, ks) + Sum(TotalsFor(rest, period, ks))
    decreases |ks|
  {
    if ks != [] {
      SumTotalsCons(e, rest, period, ks[1..]);
      GroupTotalAppend([e], rest, period, ks[0]);
      GroupTotalSingle(e, period, ks[0]);
    }
  }

  lemma GroupTotalSingle(e: Expense, period: Period, key: int)
    ensures GroupTotal([e], period, key) == if PeriodKey(period, e.date) == key then e.amount else 0
  {
    assert [e][1..] == [];
    assert InGroup([e], period, key) == (if PeriodKey(period, e.date) == key then [e] else []) + InGroup([], period, key);
    assert Total([e]) == e.amount + Total([]);
  }

  /** With no records, every sum is zero. */
  lemma {:induction false} SumTotalsEmpty(period: Period, ks: seq<int>)
    ensures Sum(TotalsFor([], period, ks)) == 0
    decreases |ks|
  {
    if ks != [] {
      SumTotalsEmpty(period, ks[1..]);
    }
  }

  /** The sums over any distinct keys covering the records add up to the
      total. */
  lemma {:induction false} SumTotalsCovering(records: seq<Expense>, period: Period, ks: seq<int>)
    requires StrictlyIncreasing(ks)
    requires forall k :: k in KeySet(records, period) ==> k in ks
    ensures Sum(TotalsFor(records, period, ks)) == Total(records)
    decreases |records|
  {
    if records == [] {
      SumTotalsEmpty(period, ks);
    } else {
      var e := records[0];
      assert records == [e] + records[1..];
      SumTotalsCons(e, records[1..], period, ks);
      HitsOnce(e, period, ks);
      SumTotalsCovering(records[1..], period, ks);
    }
  }

  /** Every amount is counted in exactly one group: the sums add up to the
      total amount. */
  lemma GroupSumsAddUp(records: seq<Expense>, period: Period)
    ensures Sum(GroupSums(records, period)) == Total(records)
  {
    SumTotalsCovering(records, period, GroupKeys(records, period));
  }

  // ---------------------------------------------------------------------
  // Row order does not matter
  // ---------------------------------------------------------------------

  lemma {:induction false} GroupTotalAppend(a: seq<Expense>, b: seq<Expense>, period: Period, key: int)
    ensures GroupTotal(a + b, period, key) == GroupTotal(a, period, key) + GroupTotal(b, period, key)
  {
    WhereAppend(a, b, (e: Expense) => PeriodKey(period, e.date) == key);
    TotalAppend(InGroup(a, period, key), InGroup(b, period, key));
  }

  /** A group sum depends only on the records, not on their order. */
  lemma {:induction false} GroupTotalPermutation(a: seq<Expense>, b: seq<Expense>, period: Period, key: int)
    requires multiset(a) == multiset(b)
    ensures GroupTotal(a, period, key) == GroupTotal(b, period, key)
    decreases |a|
  {
    if a != [] {
      var x := a[0];
      assert x in multiset(b);
      var i :| 0 <= i < |b| && b[i] == x;
      var rest := b[..i] + b[i + 1..];
      assert b == b[..i] + [x] + b[i + 1..];
      assert a == [x] + a[1..];
      assert multiset(b) == multiset(b[..i]) + multiset([x]) + multiset(b[i + 1..]);
      assert multiset(a) == multiset([x]) + multiset(a[1..]);
      assert multiset(rest) == multiset(b[..i]) + multiset(b[i + 1..]);
      assert multiset(a[1..]) == multiset(a) - multiset{x};
      assert multiset(rest) == multiset(b) - multiset{x};
      GroupTotalPermutation(a[1..], rest, period, key);
      GroupTotalAppend([x], a[1..], period, key);
      GroupTotalAppend(b[..i] + [x], b[i + 1..], period, key);
      GroupTotalAppend(b[..i], [x], period, key);
      GroupTotalAppend(b[..i], b[i + 1..], period, key);
    }
  }

  /** Two ascending key lists with the same keys are the same list. */
  lemma {:induction false} AscendingUnique(xs: seq<int>, ys: seq<int>)
    requires StrictlyIncreasing(xs) && StrictlyIncreasing(ys)
    requires forall k :: k in xs <==> k in ys
    ensures xs == ys
    decreases |xs|
  {
    if xs != [] {
      assert xs[0] in xs;
    }
    if ys != [] {
      assert ys[0] in ys;
    }
    if xs != [] && ys != [] {
      assert xs[0] == ys[0];
      forall k ensures k in xs[1..] <==> k in ys[1..] {
        if k in xs[1..] {
          assert k != xs[0] && k in ys;
        }
        if k in ys[1..] {
          assert k != ys[0] && k in xs;
        }
      }
      AscendingUnique(xs[1..], ys[1..]);
    }
  }

  /** The statistics depend only on the records, not on the row order of
      the table. */
  lemma GroupSumsPermutation(a: seq<Expense>, b: seq<Expense>, period: Period)
    requires multiset(a) == multiset(b)
    ensures GroupSums(a, period) == GroupSums(b, period)
  {
    KeySetMembers(a, period);
    KeySetMembers(b, period);
    forall k ensures k in KeySet(a, period) <==> k in KeySet(b, period) {
      if k in KeySet(a, period) {
        var i :| 0 <= i < |a| && PeriodKey(period, a[i].date) == k;
        assert a[i] in multiset(b);
        var j :| 0 <= j < |b| && b[j] == a[i];
      }
      if k in KeySet(b, period) {
        var j :| 0 <= j < |b| && PeriodKey(period, b[j].date) == k;
        assert b[j] in multiset(a);
        var i :| 0 <= i < |a| && a[i] == b[j];
      }
    }
    var ks := GroupKeys(a, period);
    AscendingUnique(ks, GroupKeys(b, period));
    forall i | 0 <= i < |ks| ensures GroupSums(a, period)[i] == GroupSums(b, period)[i] {
      GroupTotalPermutation(a, b, period, ks[i]);
    }
  }
}
