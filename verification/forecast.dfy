/** The forecast page's data pipeline (src/pages/AqiForecast.jsx): the daily
    pollutant series of the pollution payload turned into per-day records,
    the model's PM2.5 predictions turned into AQI values, and the shared
    y-axis range of the two charts. */
module Forecast {
  import opened Readings
  import opened Breakpoints
  import opened Aqi

  /** One `{day, avg}` entry of a daily pollutant series. */
  datatype DailyEntry = DailyEntry(day: string, avg: Reading)

  type Series = seq<DailyEntry>

  /** `data.forecast.daily` of the pollution payload; each series may be missing. */
  datatype Daily = Daily(pm25: Option<Series>, pm10: Option<Series>, o3: Option<Series>)
  datatype ForecastField = ForecastField(daily: Option<Daily>)
  datatype DataField = DataField(forecast: Option<ForecastField>)
  datatype AqiPayload = AqiPayload(data: Option<DataField>)

  /** One row of the forecast table and the API chart. */
  datatype DayRecord = DayRecord(date: string, pm25: Reading, pm10: Reading, o3: Reading, predictedAQI: int)

  /** The two error messages the page can set while normalising. */
  datatype ForecastError = ForecastUnavailable | FetchFailed

  datatype Result<T> = Ok(value: T) | Err(error: ForecastError)

  function Message(e: ForecastError): string
  {
    match e
    case ForecastUnavailable => "Forecast data not available"
    case FetchFailed => "Failed to fetch forecast data"
  }

  /** The guard in front of the normaliser: payload, `.data`, `.data.forecast`
      and `.data.forecast.daily` must all be present. */
  predicate HasDaily(payload: Option<AqiPayload>)
  {
    && payload.Some?
    && payload.value.data.Some?
    && payload.value.data.value.forecast.Some?
    && payload.value.data.value.forecast.value.daily.Some?
  }

  function DailyOf(payload: Option<AqiPayload>): Daily
    requires HasDaily(payload)
  {
    payload.value.data.value.forecast.value.daily.value
  }

  /** A secondary pollutant's average for day `i`: the entry at the same
      position when that series and entry exist, otherwise 0. */
  function SecondaryAt(series: Option<Series>, i: int): Reading
  {
    if series.Some? && 0 <= i < |series.value| then series.value[i].avg else Some(0.0)
  }

  /** Every record's AQI is the composite AQI of its own three readings. */
  predicate Scored(records: seq<DayRecord>)
  {
    forall i :: 0 <= i < |records| ==>
      records[i].predictedAQI == CalculateAQI(records[i].pm25, records[i].pm10, records[i].o3)
  }

  lemma ScoredAppend(records: seq<DayRecord>, record: DayRecord)
    requires Scored(records)
    requires record.predictedAQI == CalculateAQI(record.pm25, record.pm10, record.o3)
    ensures Scored(records + [record])
  {
    assert forall i :: 0 <= i < |records| ==> (records + [record])[i] == records[i];
  }

  /** The per-day normalisation of `fetchForecast`: one record per PM2.5
      entry, in order.  A missing PM2.5 series makes `.map` throw, which the
      page reports as a failed fetch. */
  method Normalize(daily: Daily) returns (r: Result<seq<DayRecord>>)
    ensures daily.pm25.None? <==> r.Err?
    ensures r.Err? ==> r.error == FetchFailed
    ensures r.Ok? ==> |r.value| == |daily.pm25.value| && Scored(r.value)
    ensures r.Ok? ==> forall i :: 0 <= i < |r.value| ==>
      && r.value[i].date == daily.pm25.value[i].day
      && r.value[i].pm25 == daily.pm25.value[i].avg
      && r.value[i].pm10 == SecondaryAt(daily.pm10, i)
      && r.value[i].o3 == SecondaryAt(daily.o3, i)
  {
    if daily.pm25.None? {
      return Err(FetchFailed);
    }
    var pm25 := daily.pm25.value;
    var records: seq<DayRecord> := [];
    var i := 0;
    while i < |pm25|
      invariant 0 <= i <= |pm25|
      invariant |records| == i
      invariant Scored(records)
      invariant forall j :: 0 <= j < i ==>
        && records[j].date == pm25[j].day
        && records[j].pm25 == pm25[j].avg
        && records[j].pm10 == SecondaryAt(daily.pm10, j)
        && records[j].o3 == SecondaryAt(daily.o3, j)
    {
      var item := pm25[i];
      var pm10 := SecondaryAt(daily.pm10, i);
      var o3 := SecondaryAt(daily.o3, i);
      var record := DayRecord(item.day, item.avg, pm10, o3, CalculateAQI(item.avg, pm10, o3));
      ScoredAppend(records, record);
      records := records + [record];
      i := i + 1;
    }
    return Ok(records);
  }

  /** `fetchForecast` from the payload to the records, or to the error the
      page would set. */
  method FetchForecast(payload: Option<AqiPayload>) returns (r: Result<seq<DayRecord>>)
    ensures !HasDaily(payload) ==> r == Err(ForecastUnavailable)
    ensures r.Err? ==> Message(r.error) == if HasDaily(payload) then "Failed to fetch forecast data" else "Forecast data not available"
    ensures HasDaily(payload) && DailyOf(payload).pm25.None? ==> r == Err(FetchFailed)
    ensures r.Ok? <==> HasDaily(payload) && DailyOf(payload).pm25.Some?
    ensures r.Ok? ==> |r.value| == |DailyOf(payload).pm25.value| && Scored(r.value)
    ensures r.Ok? ==> forall i :: 0 <= i < |r.value| ==>
      && r.value[i].date == DailyOf(payload).pm25.value[i].day
      && r.value[i].pm25 == DailyOf(payload).pm25.value[i].avg
      && r.value[i].pm10 == SecondaryAt(DailyOf(payload).pm10, i)
      && r.value[i].o3 == SecondaryAt(DailyOf(payload).o3, i)
  {
    if !HasDaily(payload) {
      return Err(ForecastUnavailable);
    }
    r := Normalize(DailyOf(payload));
  }

  /** A day with no PM2.5 reading is still scored, from its other two
      pollutants; a day with none of the three scores 0. */
  lemma AbsentPM25StillScored(pm10: Reading, o3: Reading)
    ensures CalculateAQI(None, pm10, o3) == Max(SubIndex(pm10, PM10), SubIndex(o3, O3))
    ensures CalculateAQI(None, None, None) == 0
  {
    PM10WellFormed();
    O3WellFormed();
    SubIndexBounds(pm10, PM10);
    SubIndexBounds(o3, O3);
  }

  // ---------------------------------------------------------------------
  // The model forecast

  /** One prediction returned by the forecasting service. */
  datatype ModelPoint = ModelPoint(date: string, predictedPm25: Reading)

  /** `modelAQIValues`: each prediction scored as `calculateAQI(predicted_pm25 || 0, 0, 0)`,
      which is the PM2.5 sub-index alone. */
  function ModelAQIValues(points: seq<ModelPoint>): (vs: seq<int>)
    ensures |vs| == |points|
    ensures forall i :: 0 <= i < |vs| ==>
      vs[i] == GetAQI(OrZero(points[i].predictedPm25), PM25) && 0 <= vs[i] <= 500
  {
    ZeroScoresZero();
    seq(|points|, i requires 0 <= i < |points| => CalculateAQI(Some(OrZero(points[i].predictedPm25)), Some(0.0), Some(0.0)))
  }

  /** A zero PM10 or O3 concentration contributes nothing to the composite. */
  lemma ZeroScoresZero()
    ensures GetAQI(0.0, PM10) == 0 && GetAQI(0.0, O3) == 0
    ensures forall x: Reading :: CalculateAQI(x, Some(0.0), Some(0.0)) == SubIndex(x, PM25)
  {
  }

  // ---------------------------------------------------------------------
  // The shared y-axis

  datatype AxisRange = AxisRange(min: int, max: int)

  /** The smallest integer at least `x`. */
  function Ceil(x: real): (n: int)
    ensures x <= n as real < x + 1.0
  {
    -((-x).Floor)
  }

  function SeqMin(s: seq<int>): (m: int)
    requires |s| > 0
    ensures forall i :: 0 <= i < |s| ==> m <= s[i]
    ensures exists i :: 0 <= i < |s| && m == s[i]
  {
    if |s| == 1 then s[0]
    else
      var rest := SeqMin(s[1..]);
      assert forall i :: 1 <= i < |s| ==> s[i] == s[1..][i - 1];
      if s[0] <= rest then s[0] else rest
  }

  function SeqMax(s: seq<int>): (m: int)
    requires |s| > 0
    ensures forall i :: 0 <= i < |s| ==> s[i] <= m
    ensures exists i :: 0 <= i < |s| && m == s[i]
  {
    if |s| == 1 then s[0]
    else
      var rest := SeqMax(s[1..]);
      assert forall i :: 1 <= i < |s| ==> s[i] == s[1..][i - 1];
      if rest <= s[0] then s[0] else rest
  }

  /** The axis for a list of plotted values: [0, 100] when there are none;
      otherwise the floor of 90% of the least value, clamped at 0, up to the
      ceiling of 110% of the greatest. */
  function AxisFor(values: seq<int>): (r: AxisRange)
    ensures |values| == 0 ==> r == AxisRange(0, 100)
    ensures r.min >= 0
    ensures |values| > 0 ==>
      && (forall i :: 0 <= i < |values| ==> 1.1 * values[i] as real <= r.max as real)
      && (exists i :: 0 <= i < |values| && (r.max - 1) as real < 1.1 * values[i] as real)
    ensures |values| > 0 && r.min > 0 ==>
      && (forall i :: 0 <= i < |values| ==> r.min as real <= 0.9 * values[i] as real)
      && (exists i :: 0 <= i < |values| && 0.9 * values[i] as real < (r.min + 1) as real)
    ensures |values| > 0 && r.min == 0 ==> exists i :: 0 <= i < |values| && 0.9 * values[i] as real < 1.0
  {
    if |values| == 0 then AxisRange(0, 100)
    else
      var lo := SeqMin(values);
      var hi := SeqMax(values);
      AxisRange(Max(0, (0.9 * lo as real).Floor), Ceil(1.1 * hi as real))
  }

  /** With non-negative values the axis is ordered and encloses every value. */
  lemma AxisEncloses(values: seq<int>)
    requires forall i :: 0 <= i < |values| ==> values[i] >= 0
    ensures 0 <= AxisFor(values).min <= AxisFor(values).max
    ensures forall i :: 0 <= i < |values| ==> AxisFor(values).min <= values[i] <= AxisFor(values).max
  {
  }

  /** The API chart's values: `predictedAQI || 0`, which leaves a whole
      number unchanged. */
  function ApiValues(records: seq<DayRecord>): seq<int>
  {
    seq(|records|, i requires 0 <= i < |records| => records[i].predictedAQI)
  }

  /** `getYAxisConfig`: one range over the API values followed by the model values. */
  function YAxisConfig(records: seq<DayRecord>, modelValues: seq<int>): (r: AxisRange)
    ensures |records| == 0 && |modelValues| == 0 ==> r == AxisRange(0, 100)
  {
    AxisFor(ApiValues(records) + modelValues)
  }

  /** A chart whose every value is 0 gets the degenerate range [0, 0]. */
  lemma AllZeroGivesFlatAxis(values: seq<int>)
    requires |values| > 0
    requires forall i :: 0 <= i < |values| ==> values[i] == 0
    ensures AxisFor(values) == AxisRange(0, 0)
  {
  }

  /** An axis over two series placed one after the other encloses both. */
  lemma AxisEnclosesConcat(a: seq<int>, b: seq<int>)
    requires forall i :: 0 <= i < |a| ==> a[i] >= 0
    requires forall i :: 0 <= i < |b| ==> b[i] >= 0
    ensures 0 <= AxisFor(a + b).min <= AxisFor(a + b).max
    ensures forall i :: 0 <= i < |a| ==> AxisFor(a + b).min <= a[i] <= AxisFor(a + b).max
    ensures forall i :: 0 <= i < |b| ==> AxisFor(a + b).min <= b[i] <= AxisFor(a + b).max
  {
    var all := a + b;
    assert forall i :: 0 <= i < |a| ==> all[i] == a[i];
    assert forall i :: 0 <= i < |b| ==> all[|a| + i] == b[i];
    AxisEncloses(all);
  }

  /** On the page's own series (records scored by `calculateAQI`, model values
      from `modelAQIValues`) the shared axis is ordered, non-negative, and
      encloses every point of both charts. */
  lemma ChartAxisEnclosesBothSeries(records: seq<DayRecord>, points: seq<ModelPoint>)
    requires Scored(records)
    ensures 0 <= YAxisConfig(records, ModelAQIValues(points)).min <= YAxisConfig(records, ModelAQIValues(points)).max
    ensures forall i :: 0 <= i < |records| ==>
      YAxisConfig(records, ModelAQIValues(points)).min <= records[i].predictedAQI <= YAxisConfig(records, ModelAQIValues(points)).max
    ensures forall i :: 0 <= i < |points| ==>
      YAxisConfig(records, ModelAQIValues(points)).min <= ModelAQIValues(points)[i] <= YAxisConfig(records, ModelAQIValues(points)).max
  {
    var api := ApiValues(records);
    var model := ModelAQIValues(points);
    assert |api| == |records|;
    forall i | 0 <= i < |api|
      ensures api[i] == records[i].predictedAQI && api[i] >= 0
    {
    }
    AxisEnclosesConcat(api, model);
  }
}
