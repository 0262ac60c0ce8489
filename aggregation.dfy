/**
 * The data-frame operations the dashboard is built from, stated once for any
 * row type: the inclusive date-range mask, column sums, the sorted list of
 * distinct dates a group-by produces, per-date sums, reversal and the
 * date-descending sort.  A date is a day number, already normalised.
 */
module Aggregation {

  type Date = int

  /** `start <= d <= end`: both ends of a range are inclusive. */
  predicate InRange(d: Date, start: Date, end: Date) {
    start <= d && d <= end
  }

  function Max(a: int, b: int): int { if a < b then b else a }
  function Min(a: int, b: int): int { if a < b then a else b }

  /** The date column of a list of dates: the dates themselves. */
  function DateId(d: Date): Date { d }

  // ---------------------------------------------------------------------
  // Range filter
  // ---------------------------------------------------------------------

  /** The boolean-mask filter `(date >= start) & (date <= end)`: the rows
      whose date lies in the range, each as often as it occurs, in order. */
  function FilterRange<T(!new)>(rows: seq<T>, date: T -> Date, start: Date, end: Date): (r: seq<T>)
    ensures |r| <= |rows|
    ensures forall x :: x in r <==> x in rows && InRange(date(x), start, end)
  {
    if rows == [] then []
    else
      if InRange(date(rows[0]), start, end) then [rows[0]] + FilterRange(rows[1..], date, start, end)
      else FilterRange(rows[1..], date, start, end)
  }

  /** Filtering keeps every in-range row as often as it occurs and drops the rest. */
  lemma {:induction false} FilterRangeMultiset<T(!new)>(rows: seq<T>, date: T -> Date, start: Date, end: Date)
    ensures forall x :: multiset(FilterRange(rows, date, start, end))[x] ==
                        if InRange(date(x), start, end) then multiset(rows)[x] else 0
  {
    if rows != [] {
      FilterRangeMultiset(rows[1..], date, start, end);
      assert rows == [rows[0]] + rows[1..];
    }
  }

  /** Tables with the same rows, in any order, filter to tables with the same rows. */
  lemma FilterRangePermutation<T(!new)>(a: seq<T>, b: seq<T>, date: T -> Date, start: Date, end: Date)
    requires multiset(a) == multiset(b)
    ensures multiset(FilterRange(a, date, start, end)) == multiset(FilterRange(b, date, start, end))
    ensures |FilterRange(a, date, start, end)| == |FilterRange(b, date, start, end)|
  {
    FilterRangeMultiset(a, date, start, end);
    FilterRangeMultiset(b, date, start, end);
    var fa, fb := FilterRange(a, date, start, end), FilterRange(b, date, start, end);
    assert forall x :: multiset(fa)[x] == multiset(fb)[x];
    assert multiset(fa) == multiset(fb);
    assert |fa| == |multiset(fa)| == |multiset(fb)| == |fb|;
  }

  /** Filtering keeps the original order: it distributes over concatenation. */
  lemma {:induction false} FilterRangeAppend<T(!new)>(a: seq<T>, b: seq<T>, date: T -> Date, start: Date, end: Date)
    ensures FilterRange(a + b, date, start, end) == FilterRange(a, date, start, end) + FilterRange(b, date, start, end)
  {
    if a == [] {
      assert a + b == b;
    } else {
      assert (a + b)[0] == a[0];
      assert (a + b)[1..] == a[1..] + b;
      FilterRangeAppend(a[1..], b, date, start, end);
    }
  }

  /** Filtering a filtered table narrows to the intersection of the two ranges. */
  lemma {:induction false} FilterRangeNested<T(!new)>(rows: seq<T>, date: T -> Date, s1: Date, e1: Date, s2: Date, e2: Date)
    ensures FilterRange(FilterRange(rows, date, s1, e1), date, s2, e2) == FilterRange(rows, date, Max(s1, s2), Min(e1, e2))
  {
    if rows != [] {
      FilterRangeNested(rows[1..], date, s1, e1, s2, e2);
    }
  }

  /** Filtering an already filtered table with the same bounds changes nothing. */
  lemma {:induction false} FilterRangeIdempotent<T(!new)>(rows: seq<T>, date: T -> Date, start: Date, end: Date)
    ensures FilterRange(FilterRange(rows, date, start, end), date, start, end) == FilterRange(rows, date, start, end)
  {
    FilterRangeNested(rows, date, start, end, start, end);
  }

  /** A range that no row falls into leaves an empty table. */
  lemma {:induction false} FilterRangeEmpty<T(!new)>(rows: seq<T>, date: T -> Date, start: Date, end: Date)
    ensures FilterRange(rows, date, start, end) == [] <==> forall x :: x in rows ==> !InRange(date(x), start, end)
  {
    var r := FilterRange(rows, date, start, end);
    if r != [] {
      assert r[0] in r;
    }
  }

  // ---------------------------------------------------------------------
  // Column sums
  // ---------------------------------------------------------------------

  /** `df[col].sum()`: 0 on an empty table. */
  function ColumnSum<T(!new)>(rows: seq<T>, col: T -> int): int {
    if rows == [] then 0 else col(rows[0]) + ColumnSum(rows[1..], col)
  }

  /** `df[col].sum()` for a column of reals. */
  function RealColumnSum<T(!new)>(rows: seq<T>, col: T -> real): real {
    if rows == [] then 0.0 else col(rows[0]) + RealColumnSum(rows[1..], col)
  }

  lemma {:induction false} ColumnSumAppend<T(!new)>(a: seq<T>, b: seq<T>, col: T -> int)
    ensures ColumnSum(a + b, col) == ColumnSum(a, col) + ColumnSum(b, col)
  {
    if a == [] {
      assert a + b == b;
    } else {
      assert (a + b)[0] == a[0];
      assert (a + b)[1..] == a[1..] + b;
      ColumnSumAppend(a[1..], b, col);
    }
  }

  /** Taking one row out of a table takes its value out of the column sum. */
  lemma ColumnSumRemove<T(!new)>(b: seq<T>, k: int, col: T -> int)
    requires 0 <= k < |b|
    ensures ColumnSum(b, col) == col(b[k]) + ColumnSum(b[..k] + b[k + 1..], col)
  {
    assert b == b[..k] + ([b[k]] + b[k + 1..]);
    ColumnSumAppend(b[..k], [b[k]] + b[k + 1..], col);
    ColumnSumAppend(b[..k], b[k + 1..], col);
  }

  /** A column sum does not depend on the order of the rows. */
  lemma {:induction false} ColumnSumPermutation<T(!new)>(a: seq<T>, b: seq<T>, col: T -> int)
    requires multiset(a) == multiset(b)
    ensures ColumnSum(a, col) == ColumnSum(b, col)
  {
    if a == [] {
      assert |b| == |multiset(b)| == 0;
    } else {
      var x := a[0];
      assert x in multiset(a);
      var k :| 0 <= k < |b| && b[k] == x;
      var rest := b[..k] + b[k + 1..];
      ColumnSumRemove(b, k, col);
      MultisetRemove(b, k);
      assert a == [x] + a[1..];
      assert multiset(a) == multiset{x} + multiset(a[1..]);
      assert multiset(a[1..]) == multiset(a) - multiset{x};
      assert multiset(rest) == multiset(b) - multiset{x};
      ColumnSumPermutation(a[1..], rest, col);
    }
  }

  lemma MultisetRemove<T(!new)>(b: seq<T>, k: int)
    requires 0 <= k < |b|
    ensures multiset(b) == multiset{b[k]} + multiset(b[..k] + b[k + 1..])
  {
    assert b == b[..k] + [b[k]] + b[k + 1..];
  }

  /** A column that is pointwise no larger sums to no more. */
  lemma {:induction false} ColumnSumMonotone<T(!new)>(rows: seq<T>, small: T -> int, large: T -> int)
    requires forall x :: x in rows ==> small(x) <= large(x)
    ensures ColumnSum(rows, small) <= ColumnSum(rows, large)
  {
    if rows != [] {
      assert rows[0] in rows;
      ColumnSumMonotone(rows[1..], small, large);
    }
  }

  /** Counting a column with no missing cells is counting rows. */
  lemma {:induction false} CountOfPresentColumn<T(!new)>(rows: seq<T>, present: T -> int)
    requires forall x :: x in rows ==> present(x) == 1
    ensures ColumnSum(rows, present) == |rows|
  {
    if rows != [] {
      assert rows[0] in rows;
      CountOfPresentColumn(rows[1..], present);
    }
  }

  /** A column that is 0 on every row sums to 0. */
  lemma {:induction false} ColumnSumOfZeros<T(!new)>(rows: seq<T>, col: T -> int)
    requires forall x :: x in rows ==> col(x) == 0
    ensures ColumnSum(rows, col) == 0
  {
    if rows != [] {
      assert rows[0] in rows;
      ColumnSumOfZeros(rows[1..], col);
    }
  }

  /** A real column that is a fixed multiple of an integer column sums to that
      multiple of the integer sum. */
  lemma {:induction false} RealColumnSumScaled<T(!new)>(rows: seq<T>, col: T -> real, base: T -> int, rate: real)
    requires forall x :: x in rows ==> col(x) == base(x) as real * rate
    ensures RealColumnSum(rows, col) == ColumnSum(rows, base) as real * rate
  {
    if rows != [] {
      assert rows[0] in rows;
      RealColumnSumScaled(rows[1..], col, base, rate);
    }
  }

  // ---------------------------------------------------------------------
  // Orderings
  // ---------------------------------------------------------------------

  ghost predicate StrictlyAscendingBy<T(!new)>(s: seq<T>, date: T -> Date) {
    forall i, j :: 0 <= i < j < |s| ==> date(s[i]) < date(s[j])
  }

  ghost predicate StrictlyDescendingBy<T(!new)>(s: seq<T>, date: T -> Date) {
    forall i, j :: 0 <= i < j < |s| ==> date(s[i]) > date(s[j])
  }

  ghost predicate DescendingBy<T(!new)>(s: seq<T>, date: T -> Date) {
    forall i, j :: 0 <= i < j < |s| ==> date(s[i]) >= date(s[j])
  }

  /** The rows in the opposite order. */
  function Reverse<T(!new)>(s: seq<T>): (r: seq<T>)
    ensures |r| == |s|
    ensures forall i :: 0 <= i < |s| ==> r[i] == s[|s| - 1 - i]
  {
    if s == [] then [] else Reverse(s[1..]) + [s[0]]
  }

  /** Reversal only reorders. */
  lemma {:induction false} ReversePermutes<T(!new)>(s: seq<T>)
    ensures multiset(Reverse(s)) == multiset(s)
  {
    if s != [] {
      ReversePermutes(s[1..]);
      assert s == [s[0]] + s[1..];
    }
  }

  /** Reversing a table strictly ascending by date gives the one order
      `sort_values(date, ascending=False)` can produce on distinct dates. */
  lemma ReverseDescends<T(!new)>(s: seq<T>, date: T -> Date)
    requires StrictlyAscendingBy(s, date)
    ensures StrictlyDescendingBy(Reverse(s), date)
    ensures multiset(Reverse(s)) == multiset(s)
  {
    ReversePermutes(s);
  }

  /** The newest-first display of an ascending table shows the same dates,
      each once, in strictly descending order. */
  lemma ReversedDates<T(!new)>(s: seq<T>, date: T -> Date)
    requires StrictlyAscendingBy(s, date)
    ensures StrictlyDescendingBy(Reverse(s), date)
    ensures DateSet(Reverse(s), date) == DateSet(s, date)
  {
    var r := Reverse(s);
    ReverseDescends(s, date);
    forall x | x in r ensures x in s {
      var i :| 0 <= i < |r| && r[i] == x;
      assert s[|s| - 1 - i] == x;
    }
    forall x | x in s ensures x in r {
      var i :| 0 <= i < |s| && s[i] == x;
      assert r[|s| - 1 - i] == x;
    }
  }

  /** Two strictly ascending date lists with the same members are equal:
      the sorted list of distinct dates is unique. */
  lemma {:induction false} AscendingUnique(a: seq<Date>, b: seq<Date>)
    requires StrictlyAscendingBy(a, DateId) && StrictlyAscendingBy(b, DateId)
    requires forall d :: d in a <==> d in b
    ensures a == b
  {
    if a == [] {
      assert forall i :: 0 <= i < |b| ==> b[i] in b;
    } else {
      assert a[0] in b && b != [];
      assert b[0] in a;
      assert a[0] == b[0];
      forall d
        ensures d in a[1..] <==> d in b[1..]
      {
        if d in a[1..] {
          assert d in a && d != a[0];
        }
        if d in b[1..] {
          assert d in b && d != b[0];
        }
      }
      AscendingUnique(a[1..], b[1..]);
    }
  }

  // ---------------------------------------------------------------------
  // Group keys: the distinct dates, ascending
  // ---------------------------------------------------------------------

  function InsertDate(d: Date, ds: seq<Date>): (r: seq<Date>)
    requires StrictlyAscendingBy(ds, DateId)
    ensures StrictlyAscendingBy(r, DateId)
    ensures forall e :: e in r <==> e == d || e in ds
  {
    if ds == [] then [d]
    else if d < ds[0] then [d] + ds
    else if d == ds[0] then ds
    else
      var rest := InsertDate(d, ds[1..]);
      assert forall e :: e in rest ==> ds[0] < e by {
        forall e | e in rest ensures ds[0] < e {
          if e != d {
            var k :| 0 <= k < |ds[1..]| && ds[1..][k] == e;
            assert ds[k + 1] == e;
          }
        }
      }
      var r := [ds[0]] + rest;
      assert StrictlyAscendingBy(r, DateId) by {
        forall i, j | 0 <= i < j < |r| ensures r[i] < r[j] {
          assert r[j] == rest[j - 1] && rest[j - 1] in rest;
          if i > 0 {
            assert r[i] == rest[i - 1];
          }
        }
      }
      assert ds == [ds[0]] + ds[1..];
      r
  }

  /** The keys `groupby(date)` produces: every date that occurs, once,
      in ascending order. */
  function DistinctDates<T(!new)>(rows: seq<T>, date: T -> Date): (ds: seq<Date>)
    ensures StrictlyAscendingBy(ds, DateId)
    ensures forall x :: x in rows ==> date(x) in ds
    ensures forall d :: d in ds ==> exists x :: x in rows && date(x) == d
  {
    if rows == [] then []
    else
      var rest := DistinctDates(rows[1..], date);
      assert forall x :: x in rows ==> x == rows[0] || x in rows[1..];
      InsertDate(date(rows[0]), rest)
  }

  /** The dates that occur in a table. */
  ghost function DateSet<T(!new)>(s: seq<T>, date: T -> Date): set<Date> {
    set x | x in s :: date(x)
  }

  /** A table built with one row per group key, in key order, has one row for
      every date of the grouped table and no other, in strictly ascending order. */
  lemma GroupKeys<T(!new), B(!new)>(rows: seq<T>, date: T -> Date, g: seq<B>, key: B -> Date)
    requires |g| == |DistinctDates(rows, date)|
    requires forall i :: 0 <= i < |g| ==> key(g[i]) == DistinctDates(rows, date)[i]
    ensures StrictlyAscendingBy(g, key)
    ensures DateSet(g, key) == DateSet(rows, date)
  {
    var ds := DistinctDates(rows, date);
    forall d | d in DateSet(g, key) ensures d in DateSet(rows, date) {
      var b :| b in g && key(b) == d;
      var i :| 0 <= i < |g| && g[i] == b;
      assert ds[i] in ds;
      var x :| x in rows && date(x) == d;
    }
    forall d | d in DateSet(rows, date) ensures d in DateSet(g, key) {
      var x :| x in rows && date(x) == d;
      assert d in ds;
      var i :| 0 <= i < |ds| && ds[i] == d;
      assert g[i] in g;
    }
  }

  /** The group keys of a filtered table are the in-range group keys of the
      whole table. */
  lemma DistinctDatesOfFilter<T(!new)>(rows: seq<T>, date: T -> Date, start: Date, end: Date)
    ensures DistinctDates(FilterRange(rows, date, start, end), date)
         == FilterRange(DistinctDates(rows, date), DateId, start, end)
  {
    var a := DistinctDates(FilterRange(rows, date, start, end), date);
    var ds := DistinctDates(rows, date);
    var b := FilterRange(ds, DateId, start, end);
    FilterRangeAscendingBy(ds, DateId, start, end);
    forall d
      ensures d in a <==> d in b
    {
      if d in a {
        var x :| x in FilterRange(rows, date, start, end) && date(x) == d;
        assert x in rows;
      }
      if d in b {
        assert d in ds && InRange(d, start, end);
        var x :| x in rows && date(x) == d;
        assert x in FilterRange(rows, date, start, end);
      }
    }
    AscendingUnique(a, b);
  }

  /** Filtering a table sorted by date keeps it sorted. */
  lemma {:induction false} FilterRangeAscendingBy<T(!new)>(s: seq<T>, date: T -> Date, start: Date, end: Date)
    requires StrictlyAscendingBy(s, date)
    ensures StrictlyAscendingBy(FilterRange(s, date, start, end), date)
  {
    if s != [] {
      FilterRangeAscendingBy(s[1..], date, start, end);
      var rest := FilterRange(s[1..], date, start, end);
      if InRange(date(s[0]), start, end) {
        forall j | 0 <= j < |rest| ensures date(s[0]) < date(rest[j]) {
          assert rest[j] in rest;
          assert rest[j] in s[1..];
        }
        assert FilterRange(s, date, start, end) == [s[0]] + rest;
      }
    }
  }

  /** Permuting the rows leaves the group keys unchanged. */
  lemma DistinctDatesPermutation<T(!new)>(a: seq<T>, b: seq<T>, date: T -> Date)
    requires multiset(a) == multiset(b)
    ensures DistinctDates(a, date) == DistinctDates(b, date)
  {
    var da, db := DistinctDates(a, date), DistinctDates(b, date);
    forall d
      ensures d in da <==> d in db
    {
      if d in da {
        var x :| x in a && date(x) == d;
        assert x in multiset(b);
      }
      if d in db {
        var x :| x in b && date(x) == d;
        assert x in multiset(a);
      }
    }
    AscendingUnique(da, db);
  }

  // ---------------------------------------------------------------------
  // Per-date sums
  // ---------------------------------------------------------------------

  /** The aggregate of one group: the sum of `w` over the rows dated `d`. */
  function SumOn<T(!new)>(rows: seq<T>, date: T -> Date, w: T -> int, d: Date): int {
    ColumnSum(FilterRange(rows, date, d, d), w)
  }

  /** The per-date aggregates of the dates `ds`, added up. */
  function DaySums<T(!new)>(rows: seq<T>, date: T -> Date, w: T -> int, ds: seq<Date>): int {
    if ds == [] then 0 else SumOn(rows, date, w, ds[0]) + DaySums(rows, date, w, ds[1..])
  }

  /** Per-date aggregates depend only on which rows there are, not their order. */
  lemma SumOnPermutation<T(!new)>(a: seq<T>, b: seq<T>, date: T -> Date, w: T -> int, d: Date)
    requires multiset(a) == multiset(b)
    ensures SumOn(a, date, w, d) == SumOn(b, date, w, d)
  {
    FilterRangePermutation(a, b, date, d, d);
    ColumnSumPermutation(FilterRange(a, date, d, d), FilterRange(b, date, d, d), w);
  }

  /** Inside a range, a group of the filtered table is the group of the whole. */
  lemma {:induction false} SumOnFilter<T(!new)>(rows: seq<T>, date: T -> Date, w: T -> int, start: Date, end: Date, d: Date)
    requires InRange(d, start, end)
    ensures SumOn(FilterRange(rows, date, start, end), date, w, d) == SumOn(rows, date, w, d)
  {
    FilterRangeNested(rows, date, start, end, d, d);
    assert Max(start, d) == d && Min(end, d) == d;
  }

  lemma {:induction false} DaySumsOfNoRows<T(!new)>(date: T -> Date, w: T -> int, ds: seq<Date>)
    ensures DaySums([], date, w, ds) == 0
  {
    if ds != [] {
      DaySumsOfNoRows(date, w, ds[1..]);
    }
  }

  /** Taking the first row out of every group removes its value from exactly
      the one group its date belongs to. */
  lemma {:induction false} DaySumsStep<T(!new)>(rows: seq<T>, date: T -> Date, w: T -> int, ds: seq<Date>)
    requires rows != [] && StrictlyAscendingBy(ds, DateId)
    ensures DaySums(rows, date, w, ds)
         == (if date(rows[0]) in ds then w(rows[0]) else 0) + DaySums(rows[1..], date, w, ds)
  {
    if ds != [] {
      DaySumsStep(rows, date, w, ds[1..]);
      var d := ds[0];
      if date(rows[0]) == d {
        assert FilterRange(rows, date, d, d) == [rows[0]] + FilterRange(rows[1..], date, d, d);
        assert date(rows[0]) !in ds[1..];
      } else {
        assert FilterRange(rows, date, d, d) == FilterRange(rows[1..], date, d, d);
      }
    }
  }

  /** The consistency law of group-by: re-summing the per-date aggregates over
      every group key gives the aggregate of the ungrouped table. */
  lemma {:induction false} Resum<T(!new)>(rows: seq<T>, date: T -> Date, w: T -> int, ds: seq<Date>)
    requires StrictlyAscendingBy(ds, DateId)
    requires forall x :: x in rows ==> date(x) in ds
    ensures DaySums(rows, date, w, ds) == ColumnSum(rows, w)
  {
    if rows == [] {
      DaySumsOfNoRows(date, w, ds);
    } else {
      assert rows[0] in rows;
      DaySumsStep(rows, date, w, ds);
      Resum(rows[1..], date, w, ds);
    }
  }

  // ---------------------------------------------------------------------
  // Sorting rows by date, descending
  // ---------------------------------------------------------------------

  function InsertByDateDesc<T(!new)>(x: T, s: seq<T>, date: T -> Date): (r: seq<T>)
    requires DescendingBy(s, date)
    ensures DescendingBy(r, date)
    ensures forall y :: y in r ==> y == x || y in s
  {
    if s == [] then [x]
    else if date(x) >= date(s[0]) then [x] + s
    else
      var rest := InsertByDateDesc(x, s[1..], date);
      assert forall k :: 0 <= k < |rest| ==> date(s[0]) >= date(rest[k]) by {
        forall k | 0 <= k < |rest| ensures date(s[0]) >= date(rest[k]) {
          var y := rest[k];
          assert y in rest;
          if y != x {
            var m :| 0 <= m < |s[1..]| && s[1..][m] == y;
            assert s[m + 1] == y;
          }
        }
      }
      var r := [s[0]] + rest;
      assert DescendingBy(r, date) by {
        forall i, j | 0 <= i < j < |r| ensures date(r[i]) >= date(r[j]) {
          assert r[j] == rest[j - 1];
          if i > 0 {
            assert r[i] == rest[i - 1];
          }
        }
      }
      assert forall y :: y in r ==> y == s[0] || y in rest;
      r
  }

  /** Inserting a row adds exactly that row. */
  lemma {:induction false} InsertByDateDescMultiset<T(!new)>(x: T, s: seq<T>, date: T -> Date)
    requires DescendingBy(s, date)
    ensures multiset(InsertByDateDesc(x, s, date)) == multiset(s) + multiset{x}
  {
    if s != [] && date(x) < date(s[0]) {
      InsertByDateDescMultiset(x, s[1..], date);
      assert s == [s[0]] + s[1..];
    }
  }

  /** `sort_values(date, ascending=False)` on a table of rows: the result is
      ordered newest first and holds exactly the input rows. */
  function SortByDateDesc<T(!new)>(rows: seq<T>, date: T -> Date): (r: seq<T>)
    ensures DescendingBy(r, date)
    ensures multiset(r) == multiset(rows)
  {
    if rows == [] then []
    else
      var rest := SortByDateDesc(rows[1..], date);
      InsertByDateDescMultiset(rows[0], rest, date);
      assert rows == [rows[0]] + rows[1..];
      InsertByDateDesc(rows[0], rest, date)
  }
}
