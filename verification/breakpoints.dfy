/** The US EPA breakpoint tables the forecast page scores pollutants with
    (src/pages/AqiForecast.jsx, calculateAQI). */
module Breakpoints {

  /** One row: concentrations in [cLow, cHigh] map linearly onto the
      sub-index range [iLow, iHigh].  The index columns of every table in use
      are whole numbers. */
  datatype Row = Row(cLow: real, cHigh: real, iLow: int, iHigh: int)

  type Table = seq<Row>

  /** Every row has a non-empty concentration range, so its slope is defined. */
  predicate Interpolable(t: Table)
  {
    forall i :: 0 <= i < |t| ==> t[i].cLow < t[i].cHigh
  }

  /** A table in the EPA shape: every row rising, rows ascending and disjoint
      in both columns, and every index non-negative. */
  predicate WellFormed(t: Table)
  {
    && Interpolable(t)
    && (forall i :: 0 <= i < |t| ==> 0 <= t[i].iLow < t[i].iHigh)
    && (forall i, j :: 0 <= i < j < |t| ==> t[i].cHigh < t[j].cLow && t[i].iHigh < t[j].iLow)
  }

  /** Largest sub-index a table can produce. */
  function TopIndex(t: Table): int
  {
    if |t| == 0 then 0 else t[|t| - 1].iHigh
  }

  /** Largest concentration a table covers. */
  function TopConcentration(t: Table): real
  {
    if |t| == 0 then 0.0 else t[|t| - 1].cHigh
  }

  const PM25: Table := [
    Row(0.0, 12.0, 0, 50), Row(12.1, 35.4, 51, 100), Row(35.5, 55.4, 101, 150),
    Row(55.5, 150.4, 151, 200), Row(150.5, 250.4, 201, 300), Row(250.5, 500.4, 301, 500)]

  const PM10: Table := [
    Row(0.0, 54.0, 0, 50), Row(55.0, 154.0, 51, 100), Row(155.0, 254.0, 101, 150),
    Row(255.0, 354.0, 151, 200), Row(355.0, 424.0, 201, 300), Row(425.0, 604.0, 301, 500)]

  const O3: Table := [
    Row(0.0, 54.0, 0, 50), Row(55.0, 70.0, 51, 100), Row(71.0, 85.0, 101, 150),
    Row(86.0, 105.0, 151, 200), Row(106.0, 200.0, 201, 300)]

  /** The PM2.5 table is well formed, spans 0..500.4 and tops out at AQI 500. */
  lemma PM25WellFormed()
    ensures WellFormed(PM25) && PM25[0].cLow == 0.0
    ensures TopIndex(PM25) == 500 && TopConcentration(PM25) == 500.4
  {
  }

  /** The PM10 table is well formed, spans 0..604 and tops out at AQI 500. */
  lemma PM10WellFormed()
    ensures WellFormed(PM10) && PM10[0].cLow == 0.0
    ensures TopIndex(PM10) == 500 && TopConcentration(PM10) == 604.0
  {
  }

  /** The O3 table is well formed, spans 0..200 and tops out at AQI 300. */
  lemma O3WellFormed()
    ensures WellFormed(O3) && O3[0].cLow == 0.0
    ensures TopIndex(O3) == 300 && TopConcentration(O3) == 200.0
  {
  }
}
