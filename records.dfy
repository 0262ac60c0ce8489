/**
 * The rows of the three tables the dashboard loads (`ai_response`,
 * `model_create`, `photo_upload`), with dates already reduced to day numbers,
 * and the per-row weights the pandas aggregations add up.  A cell that can be
 * NULL in the database is an `Option`: pandas `sum` skips missing values and
 * pandas `count` counts only the present ones.
 */
module Records {
  import opened Wrappers
  import opened Aggregation

  /** One AI content-generation response. */
  datatype AiResponse = AiResponse(jobId: int, token: Option<int>, date: Date)

  /** One automated model creation; `standardStatus` and `standard` are the
      two names the standardisation flag column has had. */
  datatype ModelCreate = ModelCreate(modelId: Option<int>, date: Date, standardStatus: Option<int>, standard: Option<int>)

  /** One batch of photos uploaded for a listing (`sgno`). */
  datatype PhotoUpload = PhotoUpload(sgno: Option<int>, date: Date, count: Option<int>, webOpenChk: Option<int>)

  /** The flat price of one AI API call, in dollars (a rate per call, not per token). */
  const CostPerCall: real := 0.25

  /** The contribution of one cell to a pandas `sum`. */
  function ValueOrZero(v: Option<int>): int {
    match v
    case Some(n) => n
    case None => 0
  }

  /** The contribution of one cell to a pandas `count`. */
  function Present(v: Option<int>): (r: int)
    ensures 0 <= r <= 1
    ensures r == 1 <==> v.Some?
  {
    if v.Some? then 1 else 0
  }

  /** The contribution of one cell to `(x == 1).sum()`. */
  function IsOne(v: Option<int>): (r: int)
    ensures 0 <= r <= 1
    ensures r == 1 <==> v == Some(1)
  {
    if v == Some(1) then 1 else 0
  }

  function AiDate(r: AiResponse): Date { r.date }
  function TokenValue(r: AiResponse): int { ValueOrZero(r.token) }
  function TokenPresent(r: AiResponse): int { Present(r.token) }

  function ModelDate(r: ModelCreate): Date { r.date }
  function ModelIdPresent(r: ModelCreate): int { Present(r.modelId) }
  function StandardStatusIsOne(r: ModelCreate): int { IsOne(r.standardStatus) }
  function StandardIsOne(r: ModelCreate): int { IsOne(r.standard) }

  function PhotoDate(r: PhotoUpload): Date { r.date }
  function ImageCount(r: PhotoUpload): int { ValueOrZero(r.count) }
  function SgnoPresent(r: PhotoUpload): int { Present(r.sgno) }
  function WebOpenChk(r: PhotoUpload): int { ValueOrZero(r.webOpenChk) }

  /** Rows whose token is missing add nothing to the token sum, as pandas
      `sum` skips missing values. */
  lemma MissingTokensAddNothing(rows: seq<AiResponse>, missing: seq<AiResponse>)
    requires forall x :: x in missing ==> x.token.None?
    ensures ColumnSum(rows + missing, TokenValue) == ColumnSum(rows, TokenValue)
    ensures ColumnSum(rows + missing, TokenPresent) == ColumnSum(rows, TokenPresent)
  {
    ColumnSumAppend(rows, missing, TokenValue);
    ColumnSumAppend(rows, missing, TokenPresent);
    ColumnSumOfZeros(missing, TokenValue);
    ColumnSumOfZeros(missing, TokenPresent);
  }
}
