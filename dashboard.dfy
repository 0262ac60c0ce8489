/**
 * The page as a whole: the three loaded tables go through the load-time
 * grouping and sort, the three trailing-window summaries and the three
 * custom-range sections.  The summaries read one clock (`today`) and the
 * range comes from the date pickers (`start`, `end`); the two are independent
 * parameters.
 */
module Dashboard {
  import opened Wrappers
  import opened Aggregation
  import opened Records
  import opened PeriodStats
  import opened AiReport
  import opened ModelReport
  import opened PhotoReport

  /** The three tables as loaded. */
  datatype Tables = Tables(ai: seq<AiResponse>, model: ModelTable, photo: seq<PhotoUpload>)

  /** Everything the page computes before rendering.  The photo section
      comes after the model-creation section in the script, so it is `None`
      when that section has stopped the script. */
  datatype Page = Page(
    daily: Stats,
    weekly: Stats,
    monthly: Stats,
    api: ApiReport,
    models: Result<ModelSummary, SchemaError>,
    photos: Option<PhotoSummary>)

  /** The script from the load to the photo-upload cards, without the
      rendering; a failing model-creation section ends the run there. */
  function BuildPage(t: Tables, today: Date, start: Date, end: Date): (p: Page)
    ensures p.daily == CalculatePeriodStats(t.ai, t.model.rows, t.photo, today, 1)
    ensures p.weekly == CalculatePeriodStats(t.ai, t.model.rows, t.photo, today, 7)
    ensures p.monthly == CalculatePeriodStats(t.ai, t.model.rows, t.photo, today, 30)
    ensures p.daily.startDate == p.daily.endDate == today
    ensures p.weekly.endDate == today && p.weekly.endDate - p.weekly.startDate + 1 == 7
    ensures p.monthly.endDate == today && p.monthly.endDate - p.monthly.startDate + 1 == 30
    ensures p.api == CustomRangeApiReport(GroupAiByDate(t.ai), start, end)
    ensures p.api.table == Reverse(GroupAiByDate(FilterRange(t.ai, AiDate, start, end)))
    ensures p.models == ModelCreateSection(t.model, start, end)
    ensures p.models.Failure? <==> p.photos.None?
    ensures p.photos.Some? ==> p.photos.value == PhotoUploadSection(t.photo, start, end)
  {
    var grouped := GroupAiByDate(t.ai);
    var sortedModel := SortModelTable(t.model);
    SortedTableSameSection(t.model, start, end);
    StatsIgnoreModelOrder(t.ai, sortedModel.rows, t.model.rows, t.photo, today, 1);
    StatsIgnoreModelOrder(t.ai, sortedModel.rows, t.model.rows, t.photo, today, 7);
    StatsIgnoreModelOrder(t.ai, sortedModel.rows, t.model.rows, t.photo, today, 30);
    ApiReportOverRows(t.ai, start, end);
    var models := ModelCreateSection(sortedModel, start, end);
    Page(
      CalculatePeriodStats(t.ai, sortedModel.rows, t.photo, today, 1),
      CalculatePeriodStats(t.ai, sortedModel.rows, t.photo, today, 7),
      CalculatePeriodStats(t.ai, sortedModel.rows, t.photo, today, 30),
      CustomRangeApiReport(grouped, start, end),
      models,
      if models.Failure? then None else Some(PhotoUploadSection(t.photo, start, end)))
  }

  /** When the picked range is a trailing window, the summary of that window
      and the custom-range sections report the same sums; the counts agree
      too as long as no token, listing number or model id is missing. */
  lemma WindowAndRangeAgree(t: Tables, today: Date, daysAgo: int)
    ensures var s := CalculatePeriodStats(t.ai, SortModelTable(t.model).rows, t.photo, today, daysAgo);
            var api := CustomRangeApiReport(GroupAiByDate(t.ai), s.startDate, s.endDate);
            var photos := PhotoUploadSection(t.photo, s.startDate, s.endDate);
            var models := ModelCreateSection(t.model, s.startDate, s.endDate);
      && s.marketabilityTokens == api.totalTokens
      && s.imagesCount == photos.totalPhotoUpload
      && ((forall x :: x in t.ai ==> x.token.Some?) ==>
            s.marketabilityCount == api.totalCalls && s.marketabilityCost == api.totalCost)
      && ((forall x :: x in t.photo ==> x.sgno.Some?) ==> s.sgnoCount == photos.totalSgno)
      && ((forall x :: x in t.model.rows ==> x.modelId.Some?) && models.Success? ==>
            s.modelCreateCount == models.value.totalModels)
  {
    var s := CalculatePeriodStats(t.ai, SortModelTable(t.model).rows, t.photo, today, daysAgo);
    var a, b := s.startDate, s.endDate;
    ApiReportOverRows(t.ai, a, b);
    PhotoTotalsOverRows(t.photo, a, b);
    if forall x :: x in t.ai ==> x.token.Some? {
      CountOfPresentColumn(FilterRange(t.ai, AiDate, a, b), TokenPresent);
    }
    if forall x :: x in t.photo ==> x.sgno.Some? {
      SgnoTotalCountsRows(t.photo, a, b);
    }
    var models := ModelCreateSection(t.model, a, b);
    if (forall x :: x in t.model.rows ==> x.modelId.Some?) && models.Success? {
      ModelTotalsOverRows(t.model, a, b);
      var fm := FilterRange(t.model.rows, ModelDate, a, b);
      CountOfPresentColumn(fm, ModelIdPresent);
      FilterRangePermutation(SortModelTable(t.model).rows, t.model.rows, ModelDate, a, b);
      var fs := FilterRange(SortModelTable(t.model).rows, ModelDate, a, b);
      assert |fs| == |multiset(fs)| == |multiset(fm)| == |fm|;
    }
  }

  /** A model-creation table with neither flag column stops the page at that
      section once the range holds a row: no photo-upload section follows. */
  lemma MissingFlagColumnStopsPage()
    ensures var t := Tables([], ModelTable(false, false, [ModelCreate(Some(1), 5, None, None)]),
                            [PhotoUpload(Some(1), 5, Some(3), Some(1))]);
            var p := BuildPage(t, 5, 5, 5);
      p.models == Failure(MissingColumn("standard")) && p.photos.None?
  {
  }
}
