/**
 * The photo-upload section: the rows of the user's date range grouped by
 * day into the number of images, the number of listings (`sgno`) and the
 * number opened on the web, shown newest first and totalled.
 */
module PhotoReport {
  import opened Aggregation
  import opened Records

  /** One row of the grouped table: `Date`, `Total Count`, `Total sgno`, `Total Web Open Chk`. */
  datatype PhotoDay = PhotoDay(date: Date, totalCount: int, totalSgno: int, totalWebOpenChk: int)

  /** The table and the three summary cards of the section. */
  datatype PhotoSummary = PhotoSummary(table: seq<PhotoDay>, totalPhotoUpload: int, totalSgno: int, totalWebOpenChk: int)

  function PhotoDayDate(b: PhotoDay): Date { b.date }
  function DayImages(b: PhotoDay): int { b.totalCount }
  function DaySgno(b: PhotoDay): int { b.totalSgno }
  function DayWebOpen(b: PhotoDay): int { b.totalWebOpenChk }

  /** The group of the rows dated `d`. */
  function PhotoDayOf(rows: seq<PhotoUpload>, d: Date): PhotoDay {
    PhotoDay(d, SumOn(rows, PhotoDate, ImageCount, d), SumOn(rows, PhotoDate, SgnoPresent, d),
             SumOn(rows, PhotoDate, WebOpenChk, d))
  }

  function PhotoDays(rows: seq<PhotoUpload>, ds: seq<Date>): seq<PhotoDay> {
    seq(|ds|, i requires 0 <= i < |ds| => PhotoDayOf(rows, ds[i]))
  }

  /** `groupby('date').agg({'count': 'sum', 'sgno': 'count', 'web_open_chk': 'sum'})`:
      one row per distinct date, ascending, holding the day's image count,
      number of present listing numbers and number of web-opened uploads. */
  function GroupPhotosByDate(rows: seq<PhotoUpload>): (g: seq<PhotoDay>)
    ensures StrictlyAscendingBy(g, PhotoDayDate)
    ensures DateSet(g, PhotoDayDate) == DateSet(rows, PhotoDate)
    ensures forall i :: 0 <= i < |g| ==>
              && g[i].totalCount == SumOn(rows, PhotoDate, ImageCount, g[i].date)
              && g[i].totalSgno == SumOn(rows, PhotoDate, SgnoPresent, g[i].date)
              && g[i].totalWebOpenChk == SumOn(rows, PhotoDate, WebOpenChk, g[i].date)
  {
    var ds := DistinctDates(rows, PhotoDate);
    var g := PhotoDays(rows, ds);
    GroupKeys(rows, PhotoDate, g, PhotoDayDate);
    g
  }

  /** The section for `[start, end]`: the rows in the range grouped by day,
      newest first, with column totals; no rows leaves the table empty and
      every total 0. */
  function PhotoUploadSection(rows: seq<PhotoUpload>, start: Date, end: Date): (r: PhotoSummary)
    ensures var f := FilterRange(rows, PhotoDate, start, end);
      && (r.table == [] <==> f == [])
      && (f == [] ==> r == PhotoSummary([], 0, 0, 0))
      && StrictlyDescendingBy(r.table, PhotoDayDate)
      && DateSet(r.table, PhotoDayDate) == DateSet(f, PhotoDate)
      && multiset(r.table) == multiset(GroupPhotosByDate(f))
  {
    var filtered := FilterRange(rows, PhotoDate, start, end);
    if filtered == [] then
      PhotoSummary([], 0, 0, 0)
    else
      var grouped := GroupPhotosByDate(filtered);
      var table := Reverse(grouped);
      ReverseDescends(grouped, PhotoDayDate);
      assert filtered[0] in filtered;
      assert DateSet(table, PhotoDayDate) == DateSet(grouped, PhotoDayDate) by {
        assert forall b :: b in table <==> b in grouped by {
          assert forall b :: b in table <==> b in multiset(grouped);
        }
      }
      PhotoSummary(table, ColumnSum(table, DayImages), ColumnSum(table, DaySgno), ColumnSum(table, DayWebOpen))
  }

  lemma {:induction false} PhotoDaysSums(rows: seq<PhotoUpload>, ds: seq<Date>)
    ensures ColumnSum(PhotoDays(rows, ds), DayImages) == DaySums(rows, PhotoDate, ImageCount, ds)
    ensures ColumnSum(PhotoDays(rows, ds), DaySgno) == DaySums(rows, PhotoDate, SgnoPresent, ds)
    ensures ColumnSum(PhotoDays(rows, ds), DayWebOpen) == DaySums(rows, PhotoDate, WebOpenChk, ds)
  {
    if ds != [] {
      assert PhotoDays(rows, ds)[1..] == PhotoDays(rows, ds[1..]);
      PhotoDaysSums(rows, ds[1..]);
    }
  }

  /** The daily columns re-sum to the sums over the ungrouped rows. */
  lemma GroupedPhotosResum(rows: seq<PhotoUpload>)
    ensures ColumnSum(GroupPhotosByDate(rows), DayImages) == ColumnSum(rows, ImageCount)
    ensures ColumnSum(GroupPhotosByDate(rows), DaySgno) == ColumnSum(rows, SgnoPresent)
    ensures ColumnSum(GroupPhotosByDate(rows), DayWebOpen) == ColumnSum(rows, WebOpenChk)
  {
    var ds := DistinctDates(rows, PhotoDate);
    assert GroupPhotosByDate(rows) == PhotoDays(rows, ds);
    PhotoDaysSums(rows, ds);
    Resum(rows, PhotoDate, ImageCount, ds);
    Resum(rows, PhotoDate, SgnoPresent, ds);
    Resum(rows, PhotoDate, WebOpenChk, ds);
  }

  /** The summary cards are the sums over the rows of the range: all images,
      every present listing number once, and every web-open flag. */
  lemma PhotoTotalsOverRows(rows: seq<PhotoUpload>, start: Date, end: Date)
    ensures var r := PhotoUploadSection(rows, start, end);
            var f := FilterRange(rows, PhotoDate, start, end);
      && r.totalPhotoUpload == ColumnSum(f, ImageCount)
      && r.totalSgno == ColumnSum(f, SgnoPresent)
      && r.totalWebOpenChk == ColumnSum(f, WebOpenChk)
  {
    var f := FilterRange(rows, PhotoDate, start, end);
    if f != [] {
      var grouped := GroupPhotosByDate(f);
      var table := Reverse(grouped);
      ReversePermutes(grouped);
      ColumnSumPermutation(table, grouped, DayImages);
      ColumnSumPermutation(table, grouped, DaySgno);
      ColumnSumPermutation(table, grouped, DayWebOpen);
      GroupedPhotosResum(f);
    }
  }

  /** When no listing number is missing, `Total sgno` adds up to the number of
      uploads in the range. */
  lemma SgnoTotalCountsRows(rows: seq<PhotoUpload>, start: Date, end: Date)
    requires forall x :: x in rows ==> x.sgno.Some?
    ensures PhotoUploadSection(rows, start, end).totalSgno == |FilterRange(rows, PhotoDate, start, end)|
  {
    PhotoTotalsOverRows(rows, start, end);
    CountOfPresentColumn(FilterRange(rows, PhotoDate, start, end), SgnoPresent);
  }
}
