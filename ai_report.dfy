/**
 * The AI-response section: the table grouped by day once at load time
 * (token sum, call count, flat cost per call), then cut to the user's date
 * range, shown newest first, and totalled.
 */
module AiReport {
  import opened Aggregation
  import opened Records

  /** One row of the grouped AI table: `date`, `token_sum`, `count`, `cost`. */
  datatype AiDay = AiDay(date: Date, tokenSum: int, count: int, cost: real)

  function AiDayDate(b: AiDay): Date { b.date }
  function DayTokens(b: AiDay): int { b.tokenSum }
  function DayCalls(b: AiDay): int { b.count }
  function DayCost(b: AiDay): real { b.cost }

  /** The group of the rows dated `d`. */
  function AiDayOf(rows: seq<AiResponse>, d: Date): AiDay {
    var calls := SumOn(rows, AiDate, TokenPresent, d);
    AiDay(d, SumOn(rows, AiDate, TokenValue, d), calls, calls as real * CostPerCall)
  }

  function AiDays(rows: seq<AiResponse>, ds: seq<Date>): seq<AiDay> {
    seq(|ds|, i requires 0 <= i < |ds| => AiDayOf(rows, ds[i]))
  }

  /** `groupby('date').agg({'token': ['sum', 'count']}).sort_index()` plus the
      `cost` column: one row per distinct date, ascending; `count` counts the
      present tokens, `token_sum` adds them, and each call costs $0.25. */
  function GroupAiByDate(rows: seq<AiResponse>): (g: seq<AiDay>)
    ensures StrictlyAscendingBy(g, AiDayDate)
    ensures DateSet(g, AiDayDate) == DateSet(rows, AiDate)
    ensures forall i :: 0 <= i < |g| ==>
              && g[i].tokenSum == SumOn(rows, AiDate, TokenValue, g[i].date)
              && g[i].count == SumOn(rows, AiDate, TokenPresent, g[i].date)
              && g[i].cost == g[i].count as real * CostPerCall
  {
    var ds := DistinctDates(rows, AiDate);
    var g := AiDays(rows, ds);
    GroupKeys(rows, AiDate, g, AiDayDate);
    g
  }

  lemma {:induction false} AiDaysSums(rows: seq<AiResponse>, ds: seq<Date>)
    ensures ColumnSum(AiDays(rows, ds), DayTokens) == DaySums(rows, AiDate, TokenValue, ds)
    ensures ColumnSum(AiDays(rows, ds), DayCalls) == DaySums(rows, AiDate, TokenPresent, ds)
  {
    if ds != [] {
      assert AiDays(rows, ds)[1..] == AiDays(rows, ds[1..]);
      AiDaysSums(rows, ds[1..]);
    }
  }

  /** The per-day rows re-sum to the totals of the ungrouped table: all the
      tokens, every present token counted once, and $0.25 per call. */
  lemma GroupedAiResums(rows: seq<AiResponse>)
    ensures ColumnSum(GroupAiByDate(rows), DayTokens) == ColumnSum(rows, TokenValue)
    ensures ColumnSum(GroupAiByDate(rows), DayCalls) == ColumnSum(rows, TokenPresent)
    ensures RealColumnSum(GroupAiByDate(rows), DayCost) == ColumnSum(rows, TokenPresent) as real * CostPerCall
  {
    GroupedAiColumnsResum(rows);
    var g := GroupAiByDate(rows);
    forall b | b in g ensures b.cost == b.count as real * CostPerCall {
      var i :| 0 <= i < |g| && g[i] == b;
    }
    FlatRateTotal(g, g);
  }

  lemma GroupedAiColumnsResum(rows: seq<AiResponse>)
    ensures ColumnSum(GroupAiByDate(rows), DayTokens) == ColumnSum(rows, TokenValue)
    ensures ColumnSum(GroupAiByDate(rows), DayCalls) == ColumnSum(rows, TokenPresent)
  {
    var ds := DistinctDates(rows, AiDate);
    assert GroupAiByDate(rows) == AiDays(rows, ds);
    AiDaysSums(rows, ds);
    Resum(rows, AiDate, TokenValue, ds);
    Resum(rows, AiDate, TokenPresent, ds);
  }

  /** When no token is missing, the daily counts add up to the number of rows. */
  lemma GroupedAiCountsRows(rows: seq<AiResponse>)
    requires forall x :: x in rows ==> x.token.Some?
    ensures ColumnSum(GroupAiByDate(rows), DayCalls) == |rows|
  {
    GroupedAiResums(rows);
    CountOfPresentColumn(rows, TokenPresent);
  }

  lemma {:induction false} FilterAiDays(rows: seq<AiResponse>, ds: seq<Date>, start: Date, end: Date)
    ensures FilterRange(AiDays(rows, ds), AiDayDate, start, end) == AiDays(rows, FilterRange(ds, DateId, start, end))
  {
    if ds != [] {
      var g := AiDays(rows, ds);
      assert g[1..] == AiDays(rows, ds[1..]);
      FilterAiDays(rows, ds[1..], start, end);
      if InRange(ds[0], start, end) {
        assert AiDays(rows, [ds[0]] + FilterRange(ds[1..], DateId, start, end))
            == [AiDayOf(rows, ds[0])] + AiDays(rows, FilterRange(ds[1..], DateId, start, end));
      }
    }
  }

  /** Cutting the grouped table to a range (what the dashboard does) gives the
      grouping of the rows in that range: grouping and filtering commute. */
  lemma AiFilterCommutes(rows: seq<AiResponse>, start: Date, end: Date)
    ensures FilterRange(GroupAiByDate(rows), AiDayDate, start, end) == GroupAiByDate(FilterRange(rows, AiDate, start, end))
  {
    var ds := DistinctDates(rows, AiDate);
    var fr := FilterRange(rows, AiDate, start, end);
    var fds := FilterRange(ds, DateId, start, end);
    assert GroupAiByDate(rows) == AiDays(rows, ds);
    FilterAiDays(rows, ds, start, end);
    DistinctDatesOfFilter(rows, AiDate, start, end);
    assert GroupAiByDate(fr) == AiDays(fr, fds);
    AiDaysOfFilter(rows, fds, start, end);
  }

  /** Inside the range, the groups of the filtered rows are the groups of all rows. */
  lemma AiDaysOfFilter(rows: seq<AiResponse>, ds: seq<Date>, start: Date, end: Date)
    requires forall d :: d in ds ==> InRange(d, start, end)
    ensures AiDays(rows, ds) == AiDays(FilterRange(rows, AiDate, start, end), ds)
  {
    var fr := FilterRange(rows, AiDate, start, end);
    forall i | 0 <= i < |ds|
      ensures AiDayOf(rows, ds[i]) == AiDayOf(fr, ds[i])
    {
      assert ds[i] in ds;
      SumOnFilter(rows, AiDate, TokenValue, start, end, ds[i]);
      SumOnFilter(rows, AiDate, TokenPresent, start, end, ds[i]);
    }
  }

  /** The AI table and summary cards for a user-chosen range. */
  datatype ApiReport = ApiReport(table: seq<AiDay>, totalTokens: int, totalCalls: int, totalCost: real)

  /** Cut the grouped table to `[start, end]` and, when anything is left, sort
      it newest first and total its columns; otherwise an empty table and
      zero totals. */
  function CustomRangeApiReport(grouped: seq<AiDay>, start: Date, end: Date): (rep: ApiReport)
    ensures var f := FilterRange(grouped, AiDayDate, start, end);
      && (rep.table == [] <==> f == [])
      && multiset(rep.table) == multiset(f)
      && (StrictlyAscendingBy(grouped, AiDayDate) ==> StrictlyDescendingBy(rep.table, AiDayDate))
      && rep.totalTokens == ColumnSum(f, DayTokens)
      && rep.totalCalls == ColumnSum(f, DayCalls)
      && ((forall b :: b in grouped ==> b.cost == b.count as real * CostPerCall) ==>
            rep.totalCost == rep.totalCalls as real * CostPerCall)
  {
    var filtered := FilterRange(grouped, AiDayDate, start, end);
    if filtered == [] then
      ApiReport([], 0, 0, 0.0)
    else
      var table := Reverse(filtered);
      ReversePermutes(filtered);
      ColumnSumPermutation(table, filtered, DayTokens);
      ColumnSumPermutation(table, filtered, DayCalls);
      ReversedRangeDescends(grouped, start, end);
      FlatRateTotal(table, grouped);
      ApiReport(table, ColumnSum(table, DayTokens), ColumnSum(table, DayCalls), RealColumnSum(table, DayCost))
  }

  lemma {:induction false} ReversedRangeDescends(grouped: seq<AiDay>, start: Date, end: Date)
    ensures StrictlyAscendingBy(grouped, AiDayDate) ==>
              StrictlyDescendingBy(Reverse(FilterRange(grouped, AiDayDate, start, end)), AiDayDate)
  {
    if StrictlyAscendingBy(grouped, AiDayDate) {
      FilterRangeAscendingBy(grouped, AiDayDate, start, end);
      ReverseDescends(FilterRange(grouped, AiDayDate, start, end), AiDayDate);
    }
  }

  /** Rows taken from a table priced at $0.25 per call cost $0.25 per call in total. */
  lemma {:induction false} FlatRateTotal(table: seq<AiDay>, grouped: seq<AiDay>)
    requires forall b :: b in table ==> b in grouped
    ensures (forall b :: b in grouped ==> b.cost == b.count as real * CostPerCall) ==>
              RealColumnSum(table, DayCost) == ColumnSum(table, DayCalls) as real * CostPerCall
  {
    if forall b :: b in grouped ==> b.cost == b.count as real * CostPerCall {
      RealColumnSumScaled(table, DayCost, DayCalls, CostPerCall);
    }
  }

  /** The AI section over the raw rows: the table is the range's daily groups
      newest first, and the totals are those of the rows in the range; an
      empty range shows an empty table and totals 0, 0 and 0.0. */
  lemma ApiReportOverRows(rows: seq<AiResponse>, start: Date, end: Date)
    ensures var rep := CustomRangeApiReport(GroupAiByDate(rows), start, end);
            var f := FilterRange(rows, AiDate, start, end);
      && rep.table == Reverse(GroupAiByDate(f))
      && StrictlyDescendingBy(rep.table, AiDayDate)
      && rep.totalTokens == ColumnSum(f, TokenValue)
      && rep.totalCalls == ColumnSum(f, TokenPresent)
      && rep.totalCost == rep.totalCalls as real * CostPerCall
      && (f == [] ==> rep == ApiReport([], 0, 0, 0.0))
  {
    var g := GroupAiByDate(rows);
    var f := FilterRange(rows, AiDate, start, end);
    AiFilterCommutes(rows, start, end);
    GroupedAiResums(f);
    var rep := CustomRangeApiReport(g, start, end);
    if f == [] {
      assert GroupAiByDate(f) == [];
    } else {
      assert f[0] in f;
      assert GroupAiByDate(f) != [];
    }
  }
}
