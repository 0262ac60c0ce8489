/**
 * The model-creation section: the table sorted newest first at load time,
 * cut to the user's date range, grouped by day into the number of models and
 * the number of standardised ones, with the non-standardised count derived by
 * subtraction, shown newest first and totalled.
 */
module ModelReport {
  import opened Wrappers
  import opened Aggregation
  import opened Records

  /** The two names the standardisation flag column has had. */
  datatype FlagColumn = StandardStatus | Standard

  /** The `model_create` table: which flag columns its schema has, and its rows. */
  datatype ModelTable = ModelTable(hasStandardStatus: bool, hasStandard: bool, rows: seq<ModelCreate>)

  /** The aggregation asked for a column the table does not have (pandas raises `KeyError`). */
  datatype SchemaError = MissingColumn(name: string)

  /** One row of the grouped table: `Date`, `Total Count`, `Standardized`, `Non-Standardized`. */
  datatype ModelDay = ModelDay(date: Date, totalCount: int, standardized: int, nonStandardized: int)

  /** The table and the three summary cards of the section. */
  datatype ModelSummary = ModelSummary(table: seq<ModelDay>, totalModels: int, totalStandardized: int, totalNonStandardized: int)

  function ModelDayDate(b: ModelDay): Date { b.date }
  function DayTotal(b: ModelDay): int { b.totalCount }
  function DayStandardized(b: ModelDay): int { b.standardized }
  function DayNonStandardized(b: ModelDay): int { b.nonStandardized }

  /** `sort_values('date', ascending=False)` on the loaded table. */
  function SortModelTable(t: ModelTable): (s: ModelTable)
    ensures s.hasStandardStatus == t.hasStandardStatus && s.hasStandard == t.hasStandard
    ensures DescendingBy(s.rows, ModelDate)
    ensures multiset(s.rows) == multiset(t.rows)
  {
    t.(rows := SortByDateDesc(t.rows, ModelDate))
  }

  /** The flag column is `standard_status` when the table has it, otherwise `standard`. */
  function ResolveFlagColumn(t: ModelTable): (c: FlagColumn)
    ensures c == StandardStatus <==> t.hasStandardStatus
    ensures c == Standard <==> !t.hasStandardStatus
  {
    if t.hasStandardStatus then StandardStatus else Standard
  }

  /** Whether the table has the column `c`. */
  function HasColumn(t: ModelTable, c: FlagColumn): bool {
    match c
    case StandardStatus => t.hasStandardStatus
    case Standard => t.hasStandard
  }

  /** `(x == 1)` on the chosen flag column, per row. */
  function Standardized(c: FlagColumn): ModelCreate -> int {
    match c
    case StandardStatus => StandardStatusIsOne
    case Standard => StandardIsOne
  }

  /** The group of the rows dated `d`. */
  function ModelDayOf(rows: seq<ModelCreate>, c: FlagColumn, d: Date): ModelDay {
    var total := SumOn(rows, ModelDate, ModelIdPresent, d);
    var standardized := SumOn(rows, ModelDate, Standardized(c), d);
    ModelDay(d, total, standardized, total - standardized)
  }

  function ModelDays(rows: seq<ModelCreate>, c: FlagColumn, ds: seq<Date>): seq<ModelDay> {
    seq(|ds|, i requires 0 <= i < |ds| => ModelDayOf(rows, c, ds[i]))
  }

  /** `groupby('date').agg({'model_id': 'count', flag: (x == 1).sum()})` with
      `Non-Standardized` added: one row per distinct date, ascending;
      `Total Count` counts the present model ids of the day and `Standardized`
      the rows whose flag is 1. */
  function GroupModelsByDate(rows: seq<ModelCreate>, c: FlagColumn): (g: seq<ModelDay>)
    ensures StrictlyAscendingBy(g, ModelDayDate)
    ensures DateSet(g, ModelDayDate) == DateSet(rows, ModelDate)
    ensures forall i :: 0 <= i < |g| ==>
              && g[i].totalCount == SumOn(rows, ModelDate, ModelIdPresent, g[i].date)
              && g[i].standardized == SumOn(rows, ModelDate, Standardized(c), g[i].date)
              && g[i].nonStandardized == g[i].totalCount - g[i].standardized
  {
    var ds := DistinctDates(rows, ModelDate);
    var g := ModelDays(rows, c, ds);
    GroupKeys(rows, ModelDate, g, ModelDayDate);
    g
  }

  /** The section for `[start, end]`: the rows in the range, grouped by day
      newest first with totals; no rows gives an empty table and zero totals;
      a table with neither flag column fails once there is something to group. */
  function ModelCreateSection(t: ModelTable, start: Date, end: Date): (r: Result<ModelSummary, SchemaError>)
    ensures var f := FilterRange(t.rows, ModelDate, start, end);
      && (r.Failure? <==> f != [] && !HasColumn(t, ResolveFlagColumn(t)))
      && (r.Failure? ==> r.error == MissingColumn("standard"))
      && (f == [] ==> r == Success(ModelSummary([], 0, 0, 0)))
      && (r.Success? ==>
            && (r.value.table == [] <==> f == [])
            && StrictlyDescendingBy(r.value.table, ModelDayDate)
            && DateSet(r.value.table, ModelDayDate) == DateSet(f, ModelDate)
            && (forall i :: 0 <= i < |r.value.table| ==>
                  r.value.table[i].nonStandardized == r.value.table[i].totalCount - r.value.table[i].standardized)
            && r.value.totalModels == ColumnSum(f, ModelIdPresent)
            && r.value.totalStandardized == ColumnSum(f, Standardized(ResolveFlagColumn(t)))
            && r.value.totalNonStandardized == r.value.totalModels - r.value.totalStandardized)
      && (r.Success? && f != [] ==> r.value.table == Reverse(GroupModelsByDate(f, ResolveFlagColumn(t))))
  {
    var filtered := FilterRange(t.rows, ModelDate, start, end);
    if filtered == [] then
      Success(ModelSummary([], 0, 0, 0))
    else
      var c := ResolveFlagColumn(t);
      if !HasColumn(t, c) then
        Failure(MissingColumn("standard"))
      else
        DisplayedModelDays(filtered, c);
        SummaryTotals(filtered, c);
        Success(SummaryOf(filtered, c))
  }

  /** The table and cards of a range that holds rows: the daily groups newest
      first, and the column totals. */
  function SummaryOf(rows: seq<ModelCreate>, c: FlagColumn): ModelSummary {
    var table := Reverse(GroupModelsByDate(rows, c));
    var totalModels := ColumnSum(table, DayTotal);
    var totalStandardized := ColumnSum(table, DayStandardized);
    ModelSummary(table, totalModels, totalStandardized, totalModels - totalStandardized)
  }

  /** The displayed table of a non-empty range: not empty, newest first,
      the range's dates, and `Non-Standardized` the difference on every row. */
  lemma DisplayedModelDays(rows: seq<ModelCreate>, c: FlagColumn)
    requires rows != []
    ensures var table := Reverse(GroupModelsByDate(rows, c));
      && table != []
      && StrictlyDescendingBy(table, ModelDayDate)
      && DateSet(table, ModelDayDate) == DateSet(rows, ModelDate)
      && (forall i :: 0 <= i < |table| ==> table[i].nonStandardized == table[i].totalCount - table[i].standardized)
  {
    var grouped := GroupModelsByDate(rows, c);
    ReversedDates(grouped, ModelDayDate);
    assert rows[0] in rows;
    assert ModelDate(rows[0]) in DateSet(grouped, ModelDayDate);
  }

  /** The cards of a range that holds rows count its rows directly: present
      model ids, and rows flagged 1. */
  lemma SummaryTotals(rows: seq<ModelCreate>, c: FlagColumn)
    ensures SummaryOf(rows, c).totalModels == ColumnSum(rows, ModelIdPresent)
    ensures SummaryOf(rows, c).totalStandardized == ColumnSum(rows, Standardized(c))
  {
    var grouped := GroupModelsByDate(rows, c);
    var table := Reverse(grouped);
    ReversePermutes(grouped);
    ColumnSumPermutation(table, grouped, DayTotal);
    ColumnSumPermutation(table, grouped, DayStandardized);
    GroupedModelsResum(rows, c);
  }

  lemma {:induction false} ModelDaysSums(rows: seq<ModelCreate>, c: FlagColumn, ds: seq<Date>)
    ensures ColumnSum(ModelDays(rows, c, ds), DayTotal) == DaySums(rows, ModelDate, ModelIdPresent, ds)
    ensures ColumnSum(ModelDays(rows, c, ds), DayStandardized) == DaySums(rows, ModelDate, Standardized(c), ds)
  {
    if ds != [] {
      assert ModelDays(rows, c, ds)[1..] == ModelDays(rows, c, ds[1..]);
      ModelDaysSums(rows, c, ds[1..]);
    }
  }

  /** The daily `Total Count` and `Standardized` columns re-sum to the counts
      over the ungrouped rows. */
  lemma GroupedModelsResum(rows: seq<ModelCreate>, c: FlagColumn)
    ensures ColumnSum(GroupModelsByDate(rows, c), DayTotal) == ColumnSum(rows, ModelIdPresent)
    ensures ColumnSum(GroupModelsByDate(rows, c), DayStandardized) == ColumnSum(rows, Standardized(c))
  {
    var ds := DistinctDates(rows, ModelDate);
    assert GroupModelsByDate(rows, c) == ModelDays(rows, c, ds);
    ModelDaysSums(rows, c, ds);
    Resum(rows, ModelDate, ModelIdPresent, ds);
    Resum(rows, ModelDate, Standardized(c), ds);
  }

  /** The summary cards count the rows of the range directly: `total_models`
      is the number of present model ids, `total_standardized` the number of
      rows flagged 1, and `total_non_standardized` the sum of the daily
      `Non-Standardized` column. */
  lemma ModelTotalsOverRows(t: ModelTable, start: Date, end: Date)
    ensures var r := ModelCreateSection(t, start, end);
            var f := FilterRange(t.rows, ModelDate, start, end);
      r.Success? ==>
        && r.value.totalModels == ColumnSum(f, ModelIdPresent)
        && r.value.totalStandardized == ColumnSum(f, Standardized(ResolveFlagColumn(t)))
        && r.value.totalNonStandardized == ColumnSum(r.value.table, DayNonStandardized)
  {
    var r := ModelCreateSection(t, start, end);
    var f := FilterRange(t.rows, ModelDate, start, end);
    if r.Success? && f != [] {
      var table := r.value.table;
      assert forall b :: b in table ==> b.nonStandardized == b.totalCount - b.standardized by {
        forall b | b in table ensures b.nonStandardized == b.totalCount - b.standardized {
          var i :| 0 <= i < |table| && table[i] == b;
        }
      }
      NonStandardizedColumn(table);
    }
  }

  /** A column derived by row-wise subtraction sums to the difference of the sums. */
  lemma {:induction false} NonStandardizedColumn(table: seq<ModelDay>)
    requires forall b :: b in table ==> b.nonStandardized == b.totalCount - b.standardized
    ensures ColumnSum(table, DayNonStandardized) == ColumnSum(table, DayTotal) - ColumnSum(table, DayStandardized)
  {
    if table != [] {
      assert table[0] in table;
      NonStandardizedColumn(table[1..]);
    }
  }

  /** When every row has a model id, no day and no total has a negative
      `Non-Standardized` count. */
  lemma NonStandardizedNonNegative(t: ModelTable, start: Date, end: Date)
    requires forall x :: x in t.rows ==> x.modelId.Some?
    ensures var r := ModelCreateSection(t, start, end);
      r.Success? ==>
        && (forall i :: 0 <= i < |r.value.table| ==> r.value.table[i].nonStandardized >= 0)
        && r.value.totalNonStandardized >= 0
  {
    var r := ModelCreateSection(t, start, end);
    var f := FilterRange(t.rows, ModelDate, start, end);
    if r.Success? && f != [] {
      var c := ResolveFlagColumn(t);
      var grouped := GroupModelsByDate(f, c);
      GroupedNonNegative(f, c);
      assert r.value.table == Reverse(grouped);
      ModelTotalsOverRows(t, start, end);
      StandardizedAtMostTotal(f, c);
    }
  }

  /** Every day of a table without missing model ids has at least as many
      counted models as standardized ones, also in newest-first order. */
  lemma GroupedNonNegative(rows: seq<ModelCreate>, c: FlagColumn)
    requires forall x :: x in rows ==> x.modelId.Some?
    ensures var g := GroupModelsByDate(rows, c);
      forall i :: 0 <= i < |g| ==> g[i].nonStandardized >= 0 && Reverse(g)[|g| - 1 - i].nonStandardized >= 0
  {
    var g := GroupModelsByDate(rows, c);
    forall i | 0 <= i < |g| ensures g[i].nonStandardized >= 0 {
      var day := FilterRange(rows, ModelDate, g[i].date, g[i].date);
      StandardizedAtMostTotal(day, c);
    }
  }

  lemma {:induction false} StandardizedAtMostTotal(rows: seq<ModelCreate>, c: FlagColumn)
    requires forall x :: x in rows ==> x.modelId.Some?
    ensures ColumnSum(rows, Standardized(c)) <= ColumnSum(rows, ModelIdPresent)
  {
    ColumnSumMonotone(rows, Standardized(c), ModelIdPresent);
  }

  /** Without that guarantee the derived column can go negative: `count` skips
      a missing model id while `(x == 1).sum()` still counts its flag. */
  lemma MissingModelIdGivesNegativeNonStandardized()
    ensures var t := ModelTable(true, false, [ModelCreate(None, 0, Some(1), None)]);
            var r := ModelCreateSection(t, 0, 0);
      r.Success? && r.value.totalNonStandardized == -1
  {
    var t := ModelTable(true, false, [ModelCreate(None, 0, Some(1), None)]);
    var f := FilterRange(t.rows, ModelDate, 0, 0);
    assert f == t.rows;
    ModelTotalsOverRows(t, 0, 0);
  }

  /** The section depends only on which rows the table holds, not on their
      order, so sorting the loaded table newest first changes nothing. */
  lemma SectionIgnoresRowOrder(t: ModelTable, u: ModelTable, start: Date, end: Date)
    requires multiset(t.rows) == multiset(u.rows)
    requires t.hasStandardStatus == u.hasStandardStatus && t.hasStandard == u.hasStandard
    ensures ModelCreateSection(t, start, end) == ModelCreateSection(u, start, end)
  {
    var ft := FilterRange(t.rows, ModelDate, start, end);
    var fu := FilterRange(u.rows, ModelDate, start, end);
    FilterRangePermutation(t.rows, u.rows, ModelDate, start, end);
    var c := ResolveFlagColumn(t);
    if ft == [] {
      assert fu == [];
    } else if !HasColumn(t, c) {
    } else {
      GroupingIgnoresRowOrder(ft, fu, c);
      assert SummaryOf(ft, c) == SummaryOf(fu, c);
    }
  }

  lemma GroupingIgnoresRowOrder(a: seq<ModelCreate>, b: seq<ModelCreate>, c: FlagColumn)
    requires multiset(a) == multiset(b)
    ensures GroupModelsByDate(a, c) == GroupModelsByDate(b, c)
  {
    DistinctDatesPermutation(a, b, ModelDate);
    var ds := DistinctDates(a, ModelDate);
    forall i | 0 <= i < |ds|
      ensures ModelDayOf(a, c, ds[i]) == ModelDayOf(b, c, ds[i])
    {
      SumOnPermutation(a, b, ModelDate, ModelIdPresent, ds[i]);
      SumOnPermutation(a, b, ModelDate, Standardized(c), ds[i]);
    }
    assert ModelDays(a, c, ds) == ModelDays(b, c, ds);
  }

  lemma SortedTableSameSection(t: ModelTable, start: Date, end: Date)
    ensures ModelCreateSection(SortModelTable(t), start, end) == ModelCreateSection(t, start, end)
  {
    SectionIgnoresRowOrder(SortModelTable(t), t, start, end);
  }
}
