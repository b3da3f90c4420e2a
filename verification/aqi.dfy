/** Sub-index and composite AQI (src/pages/AqiForecast.jsx, getAQI and
    calculateAQI): piecewise-linear interpolation over a breakpoint table,
    then the worst of the three pollutants. */
module Aqi {
  import opened Readings
  import opened Breakpoints

  /** JavaScript `Math.round`: the nearest integer, halves rounded up. */
  function Round(x: real): (n: int)
    ensures n as real - 0.5 <= x < n as real + 0.5
  {
    (x + 0.5).Floor
  }

  /** Whether a row's closed concentration range contains `c`. */
  predicate Covers(r: Row, c: real)
  {
    r.cLow <= c <= r.cHigh
  }

  /** Whether some row of the table contains `c`. */
  predicate InTable(t: Table, c: real)
  {
    exists i :: 0 <= i < |t| && Covers(t[i], c)
  }

  /** The unrounded interpolation of `c` along a row. */
  function Interp(r: Row, c: real): real
    requires r.cLow < r.cHigh
  {
    (r.iHigh - r.iLow) as real / (r.cHigh - r.cLow) * (c - r.cLow) + r.iLow as real
  }

  /** getAQI: the rounded interpolation along the first row, in table order,
      whose range contains `c`; 0 when no row does. */
  function GetAQI(c: real, t: Table): (aqi: int)
    requires Interpolable(t)
    ensures aqi != 0 ==> InTable(t, c)
  {
    ScanFrom(c, t, 0)
  }

  /** The `for ... of` loop of getAQI, resumed at row `k`. */
  function ScanFrom(c: real, t: Table, k: nat): (aqi: int)
    requires Interpolable(t) && k <= |t|
    ensures aqi == 0 || exists i :: k <= i < |t| && Covers(t[i], c) && aqi == Round(Interp(t[i], c))
    decreases |t| - k
  {
    if k == |t| then 0
    else if Covers(t[k], c) then Round(Interp(t[k], c))
    else ScanFrom(c, t, k + 1)
  }

  /** The sub-index of a reading that may be absent: every comparison with an
      absent value fails, so no row matches.  Only a present concentration
      inside some row scores above 0. */
  function SubIndex(x: Reading, t: Table): (aqi: int)
    requires Interpolable(t)
    ensures aqi != 0 ==> x.Some? && InTable(t, x.value)
  {
    match x
    case None => 0
    case Some(c) => GetAQI(c, t)
  }

  function Max(a: int, b: int): int
  {
    if a < b then b else a
  }

  /** calculateAQI: the largest of the PM2.5, PM10 and O3 sub-indices. */
  function CalculateAQI(pm25: Reading, pm10: Reading, o3: Reading): (aqi: int)
    ensures aqi >= SubIndex(pm25, PM25) && aqi >= SubIndex(pm10, PM10) && aqi >= SubIndex(o3, O3)
    ensures aqi == SubIndex(pm25, PM25) || aqi == SubIndex(pm10, PM10) || aqi == SubIndex(o3, O3)
    ensures 0 <= aqi <= 500
  {
    PM25WellFormed();
    PM10WellFormed();
    O3WellFormed();
    SubIndexBounds(pm25, PM25);
    SubIndexBounds(pm10, PM10);
    SubIndexBounds(o3, O3);
    Max(Max(SubIndex(pm25, PM25), SubIndex(pm10, PM10)), SubIndex(o3, O3))
  }

  // ---------------------------------------------------------------------
  // One row

  lemma RoundWhole(n: int)
    ensures Round(n as real) == n
  {
  }

  /** A value between two whole numbers rounds to a value between them. */
  lemma RoundBetween(x: real, lo: int, hi: int)
    requires lo as real <= x <= hi as real
    ensures lo <= Round(x) <= hi
  {
  }

  /** Interpolation hits the row's index ends exactly at its concentration ends. */
  lemma InterpEnds(r: Row)
    requires r.cLow < r.cHigh
    ensures Interp(r, r.cLow) == r.iLow as real
    ensures Interp(r, r.cHigh) == r.iHigh as real
  {
  }

  /** Interpolation along a rising row never decreases. */
  lemma InterpMonotone(r: Row, c1: real, c2: real)
    requires r.cLow < r.cHigh && r.iLow <= r.iHigh
    requires c1 <= c2
    ensures Interp(r, c1) <= Interp(r, c2)
  {
  }

  /** Within a matching row the rounded sub-index stays in [iLow, iHigh] and
      equals iLow at cLow and iHigh at cHigh. */
  lemma RowResult(r: Row, c: real)
    requires r.cLow < r.cHigh && r.iLow <= r.iHigh
    requires Covers(r, c)
    ensures r.iLow <= Round(Interp(r, c)) <= r.iHigh
    ensures c == r.cLow ==> Round(Interp(r, c)) == r.iLow
    ensures c == r.cHigh ==> Round(Interp(r, c)) == r.iHigh
  {
    InterpEnds(r);
    InterpMonotone(r, r.cLow, c);
    InterpMonotone(r, c, r.cHigh);
    RoundBetween(Interp(r, c), r.iLow, r.iHigh);
    RoundWhole(r.iLow);
    RoundWhole(r.iHigh);
  }

  /** Along one row the rounded sub-index never decreases in `c`. */
  lemma RowResultMonotone(r: Row, c1: real, c2: real)
    requires r.cLow < r.cHigh && r.iLow <= r.iHigh
    requires c1 <= c2
    ensures Round(Interp(r, c1)) <= Round(Interp(r, c2))
  {
    InterpMonotone(r, c1, c2);
  }

  // ---------------------------------------------------------------------
  // Whole table

  lemma {:induction false} ScanFromFirstMatch(c: real, t: Table, from: nat, k: int)
    requires Interpolable(t)
    requires from <= k < |t| && Covers(t[k], c)
    requires forall j :: from <= j < k ==> !Covers(t[j], c)
    ensures ScanFrom(c, t, from) == Round(Interp(t[k], c))
    decreases k - from
  {
    if from < k {
      ScanFromFirstMatch(c, t, from + 1, k);
    }
  }

  /** getAQI answers from the first row, in table order, containing `c`. */
  lemma GetAQIFirstMatch(c: real, t: Table, k: int)
    requires Interpolable(t)
    requires 0 <= k < |t| && Covers(t[k], c)
    requires forall j :: 0 <= j < k ==> !Covers(t[j], c)
    ensures GetAQI(c, t) == Round(Interp(t[k], c))
  {
    ScanFromFirstMatch(c, t, 0, k);
  }

  /** getAQI is 0 when no row contains `c`. */
  lemma GetAQINoMatch(c: real, t: Table)
    requires Interpolable(t)
    requires forall j :: 0 <= j < |t| ==> !Covers(t[j], c)
    ensures GetAQI(c, t) == 0
  {
  }

  /** In a well-formed table at most one row contains a concentration. */
  lemma UniqueCover(t: Table, c: real, i: int, j: int)
    requires WellFormed(t)
    requires 0 <= i < |t| && 0 <= j < |t|
    requires Covers(t[i], c) && Covers(t[j], c)
    ensures i == j
  {
  }

  /** In a well-formed table, a concentration inside row `k` scores by row `k`
      alone, and the score lies in that row's index range. */
  lemma GetAQIInRow(c: real, t: Table, k: int)
    requires WellFormed(t)
    requires 0 <= k < |t| && Covers(t[k], c)
    ensures GetAQI(c, t) == Round(Interp(t[k], c))
    ensures t[k].iLow <= GetAQI(c, t) <= t[k].iHigh
  {
    forall j | 0 <= j < k
      ensures !Covers(t[j], c)
    {
      if Covers(t[j], c) {
        UniqueCover(t, c, j, k);
      }
    }
    GetAQIFirstMatch(c, t, k);
    RowResult(t[k], c);
  }

  /** A well-formed table's sub-index lies in [0, TopIndex(t)]. */
  lemma GetAQIBounds(c: real, t: Table)
    requires WellFormed(t)
    ensures 0 <= GetAQI(c, t) <= TopIndex(t)
  {
    if k :| 0 <= k < |t| && Covers(t[k], c) {
      GetAQIInRow(c, t, k);
      if k < |t| - 1 {
        assert t[k].iHigh < t[|t| - 1].iLow;
      }
    } else {
      GetAQINoMatch(c, t);
    }
  }

  /** A well-formed table scores a reading, present or absent, in [0, TopIndex(t)]. */
  lemma SubIndexBounds(x: Reading, t: Table)
    requires WellFormed(t)
    ensures 0 <= SubIndex(x, t) <= TopIndex(t)
  {
    if x.Some? {
      GetAQIBounds(x.value, t);
    }
  }

  /** Above the table's top concentration (or below its bottom) getAQI is 0:
      there is no extrapolation. */
  lemma GetAQIOutsideTable(c: real, t: Table)
    requires WellFormed(t) && |t| > 0
    requires c > TopConcentration(t) || c < t[0].cLow
    ensures GetAQI(c, t) == 0
  {
    forall j | 0 <= j < |t|
      ensures !Covers(t[j], c)
    {
      if j < |t| - 1 {
        assert t[j].cHigh < t[|t| - 1].cLow;
      }
      if 0 < j {
        assert t[0].cHigh < t[j].cLow;
      }
    }
    GetAQINoMatch(c, t);
  }

  /** Between two covered concentrations a well-formed table's sub-index never
      decreases. */
  lemma GetAQIMonotone(c1: real, c2: real, t: Table, k1: int, k2: int)
    requires WellFormed(t)
    requires c1 <= c2
    requires 0 <= k1 < |t| && Covers(t[k1], c1)
    requires 0 <= k2 < |t| && Covers(t[k2], c2)
    ensures GetAQI(c1, t) <= GetAQI(c2, t)
  {
    GetAQIInRow(c1, t, k1);
    GetAQIInRow(c2, t, k2);
    if k2 < k1 {
      assert false;
    } else if k1 == k2 {
      RowResultMonotone(t[k1], c1, c2);
    } else {
      assert t[k1].iHigh < t[k2].iLow;
    }
  }

  // ---------------------------------------------------------------------
  // Worked examples

  /** PM2.5 = 10 falls in the first row: round(50/12 * 10) = 42. */
  lemma PM25At10()
    ensures GetAQI(10.0, PM25) == 42
    ensures CalculateAQI(Some(10.0), Some(0.0), Some(0.0)) == 42
  {
  }

  /** PM2.5 = 200 falls in row [150.5, 250.4] -> [201, 300] and scores 250. */
  lemma PM25At200()
    ensures Covers(PM25[4], 200.0) && forall j :: 0 <= j < 4 ==> !Covers(PM25[j], 200.0)
    ensures GetAQI(200.0, PM25) == 250
  {
  }

  /** PM2.5 = 12.05 lies between the first two rows and scores 0, while the
      neighbouring 12 scores 50: the sub-index is not monotone across a gap. */
  lemma PM25Gap()
    ensures GetAQI(12.05, PM25) == 0
    ensures GetAQI(12.0, PM25) == 50
  {
  }

  /** The tables' tops: PM2.5 above 500.4, PM10 above 604 and O3 above 200 all
      score 0. */
  lemma AboveTopScoresZero(pm25: real, pm10: real, o3: real)
    requires pm25 > 500.4 && pm10 > 604.0 && o3 > 200.0
    ensures GetAQI(pm25, PM25) == 0 && GetAQI(pm10, PM10) == 0 && GetAQI(o3, O3) == 0
    ensures CalculateAQI(Some(pm25), Some(pm10), Some(o3)) == 0
  {
  }
}
