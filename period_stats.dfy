/**
 * The daily, weekly and monthly summaries: each counts and sums the three
 * tables over a trailing window of `daysAgo` calendar days that ends today.
 * "Today" is a parameter (the program reads the local clock).
 */
module PeriodStats {
  import opened Aggregation
  import opened Records

  /** An inclusive range of days. */
  datatype Window = Window(start: Date, end: Date)

  /** The window of `daysAgo` days ending today, today counted as day 1. */
  function TrailingWindow(today: Date, daysAgo: int): (w: Window)
    ensures w.end == today
    ensures forall d :: InRange(d, w.start, w.end) <==> today - daysAgo < d <= today
    ensures w.end - w.start + 1 == daysAgo
    ensures daysAgo == 1 ==> w.start == w.end
  {
    Window(today - (daysAgo - 1), today)
  }

  /** The dictionary `calculate_period_stats` returns. */
  datatype Stats = Stats(
    startDate: Date,
    endDate: Date,
    marketabilityCount: int,
    marketabilityTokens: int,
    marketabilityCost: real,
    modelCreateCount: int,
    sgnoCount: int,
    imagesCount: int)

  /** Filters the three tables to the trailing window and counts and sums
      them: `len` of each filtered table, the token and image sums (0 for an
      empty table), and $0.25 per AI response row. */
  function CalculatePeriodStats(ai: seq<AiResponse>, model: seq<ModelCreate>, photo: seq<PhotoUpload>,
                                today: Date, daysAgo: int): (s: Stats)
    ensures s.startDate == TrailingWindow(today, daysAgo).start && s.endDate == today
    ensures s.marketabilityCount == |FilterRange(ai, AiDate, s.startDate, s.endDate)|
    ensures s.modelCreateCount == |FilterRange(model, ModelDate, s.startDate, s.endDate)|
    ensures s.sgnoCount == |FilterRange(photo, PhotoDate, s.startDate, s.endDate)|
    ensures s.marketabilityTokens == ColumnSum(FilterRange(ai, AiDate, s.startDate, s.endDate), TokenValue)
    ensures s.imagesCount == ColumnSum(FilterRange(photo, PhotoDate, s.startDate, s.endDate), ImageCount)
    ensures s.marketabilityCost == s.marketabilityCount as real * CostPerCall
    ensures (forall x :: x in ai ==> !(today - daysAgo < x.date <= today)) ==>
              s.marketabilityCount == 0 && s.marketabilityTokens == 0 && s.marketabilityCost == 0.0
    ensures (forall x :: x in model ==> !(today - daysAgo < x.date <= today)) ==> s.modelCreateCount == 0
    ensures (forall x :: x in photo ==> !(today - daysAgo < x.date <= today)) ==> s.sgnoCount == 0 && s.imagesCount == 0
  {
    var w := TrailingWindow(today, daysAgo);
    var filteredAi := FilterRange(ai, AiDate, w.start, w.end);
    var filteredModel := FilterRange(model, ModelDate, w.start, w.end);
    var filteredPhoto := FilterRange(photo, PhotoDate, w.start, w.end);
    FilterRangeEmpty(ai, AiDate, w.start, w.end);
    FilterRangeEmpty(model, ModelDate, w.start, w.end);
    FilterRangeEmpty(photo, PhotoDate, w.start, w.end);
    var count := |filteredAi|;
    var tokens := if filteredAi != [] then ColumnSum(filteredAi, TokenValue) else 0;
    var images := if filteredPhoto != [] then ColumnSum(filteredPhoto, ImageCount) else 0;
    Stats(w.start, w.end, count, tokens, count as real * CostPerCall,
          |filteredModel|, |filteredPhoto|, images)
  }

  /** The summaries count model rows without looking at their order, so the
      load-time sort of the model table does not change them. */
  lemma StatsIgnoreModelOrder(ai: seq<AiResponse>, model: seq<ModelCreate>, other: seq<ModelCreate>,
                              photo: seq<PhotoUpload>, today: Date, daysAgo: int)
    requires multiset(model) == multiset(other)
    ensures CalculatePeriodStats(ai, model, photo, today, daysAgo) == CalculatePeriodStats(ai, other, photo, today, daysAgo)
  {
    var w := TrailingWindow(today, daysAgo);
    FilterRangePermutation(model, other, ModelDate, w.start, w.end);
  }
}
