# AQI forecast engine — Dafny model

This project models the numeric core of an air-quality dashboard. It has two parts.

The **US EPA AQI engine** of the forecast page (`src/pages/AqiForecast.jsx`) consists of:
- the PM2.5, PM10 and O3 breakpoint tables;
- `getAQI`, which interpolates piecewise-linearly over the first matching row and returns 0 when no row matches;
- `calculateAQI`, the worst of the three sub-indices;
- the per-day normaliser inside `fetchForecast`;
- the conversion of the forecasting model's PM2.5 predictions into AQI values;
- `getYAxisConfig`, one y-axis range shared by both charts.

The **threshold classifiers** of the mood panels are:
- `getMoodStatus` (`src/pages/Dash_old.jsx`);
- from `src/pages/MoodAnalysis.jsx`: `getMoodTrend`, the initial greeting, the "Air Quality Impact" label, and the numbered recommendations card.

Modules:
- `Readings` (readings.dfy): a payload value is a number or absent (`undefined`, `NaN`, or a placeholder such as `"N/A"`). It also models JavaScript `x || 0` on a numeric field. A placeholder string would survive `||` in JavaScript; the model treats it as absent, because `getAQI` scores both a placeholder and 0 as 0.
- `Breakpoints` (breakpoints.dfy): table rows, the three tables, and their well-formedness.
- `Aqi` (aqi.dfy): `Math.round`, interpolation, `getAQI` and `calculateAQI`.
- `Forecast` (forecast.dfy): the payload shape, the normaliser with its two error messages, the model series and the y-axis.
- `Mood` (mood.dfy): the classifiers. Focus, energy and mood scores are inputs, because no code derives them.

Modelling choices:
- Concentrations are exact `real`s.
- The tables' index columns hold whole numbers and are modelled as `int`.
- `Math.round(x)` is `(x + 0.5).Floor`. `Math.ceil` is written out as `-((-x).Floor)`.
- An absent concentration scores 0, because every comparison with it fails. A JavaScript `null` would match the first row at 0 and score 0 as well.

The model keeps these behaviours of the code, although an AQI engine might be expected to act otherwise:
- A day whose PM2.5 average is absent is still scored from PM10 and O3 (`Forecast.AbsentPM25StillScored`). The AQI is not marked absent.
- `calculateAQI` returns a bare number. The contributing pollutant is not reported.
- An empty PM2.5 series yields no records and no error.
- A missing PM2.5 series makes `.map` throw, and the page reports "Failed to fetch forecast data".
- Negative or non-numeric concentrations are not rejected. They score 0.
- The tables have gaps between rows, such as PM2.5 in (12, 12.1). A concentration in a gap scores 0, so the sub-index is not continuous or monotone across row boundaries (`Aqi.PM25Gap`). It is monotone between covered concentrations (`Aqi.GetAQIMonotone`).
- When every plotted value is 0, the y-axis range is [0, 0] with no height (`Forecast.AllZeroGivesFlatAxis`).
- `Math.round` sends halves toward +infinity, not away from zero. The two agree on the non-negative values that occur here.

## Model

| member | source | states |
|---|---|---|
| `Readings.OrZero` | src/pages/AqiForecast.jsx:400 | `predicted_pm25 \|\| 0` is 0 exactly when the prediction is absent or 0; any other result is the prediction itself |
| `Breakpoints.PM25WellFormed` | src/pages/AqiForecast.jsx:377 | the PM2.5 rows ascend and are disjoint in both columns, start at 0, end at 500.4 µg/m³ and top out at AQI 500 |
| `Breakpoints.PM10WellFormed` | src/pages/AqiForecast.jsx:378 | the PM10 rows ascend and are disjoint, start at 0, end at 604 and top out at AQI 500 |
| `Breakpoints.O3WellFormed` | src/pages/AqiForecast.jsx:379 | the O3 rows ascend and are disjoint, start at 0, end at 200 and top out at AQI 300 |
| `Aqi.Round` | src/pages/AqiForecast.jsx:370 | `Math.round` gives the integer n with n − 0.5 ≤ x < n + 0.5: the nearest integer, halves rounded up |
| `Aqi.ScanFrom` | src/pages/AqiForecast.jsx:368-373 | the row loop resumed at row k returns 0, or the rounded interpolation of some later row that contains c |
| `Aqi.GetAQI` | src/pages/AqiForecast.jsx:367-374 | a non-zero sub-index only comes from a concentration that some row contains; `Aqi.GetAQIFirstMatch` and `Aqi.GetAQINoMatch` characterise the result fully |
| `Aqi.ScanFromFirstMatch` | src/pages/AqiForecast.jsx:368-371 | the row loop, resumed at any row, stops at the first later row containing c and returns its rounded interpolation |
| `Aqi.GetAQIFirstMatch` | src/pages/AqiForecast.jsx:367-371 | when row k is the first row, in table order, whose closed range contains c, the result is round((I_high−I_low)/(C_high−C_low)·(c−C_low)+I_low) on row k |
| `Aqi.GetAQINoMatch` | src/pages/AqiForecast.jsx:372-373 | when no row contains c, the result is 0 |
| `Aqi.RowResult` | src/pages/AqiForecast.jsx:370 | inside a matching row the rounded result lies in [I_low, I_high], and equals I_low at C_low and I_high at C_high exactly |
| `Aqi.RowResultMonotone` | src/pages/AqiForecast.jsx:370 | along one row the rounded result never decreases as the concentration grows |
| `Aqi.GetAQIInRow` | src/pages/AqiForecast.jsx:367-371 | in a well-formed table, a concentration inside row k is scored by row k alone, within that row's index range |
| `Aqi.GetAQIBounds` | src/pages/AqiForecast.jsx:367-374 | for a well-formed table the sub-index lies between 0 and the table's top index |
| `Aqi.GetAQIOutsideTable` | src/pages/AqiForecast.jsx:372-373 | above the top breakpoint, or below the first, the sub-index is 0: no extrapolation |
| `Aqi.GetAQIMonotone` | src/pages/AqiForecast.jsx:367-379 | between two covered concentrations c1 ≤ c2 the sub-index never decreases, even across rows |
| `Aqi.SubIndex` | src/pages/AqiForecast.jsx:381-383 | a non-zero sub-index needs a present reading that some row of its table contains; an absent reading therefore scores 0 |
| `Aqi.SubIndexBounds` | src/pages/AqiForecast.jsx:381-383 | on a well-formed table any reading, present or absent, scores within [0, top index] |
| `Aqi.CalculateAQI` | src/pages/AqiForecast.jsx:376-386 | the composite is at least each of the three sub-indices and equal to one of them, so it is their maximum; it lies in [0, 500] |
| `Aqi.PM25At10` | src/pages/AqiForecast.jsx:376-385 | PM2.5 = 10 scores 42, and with PM10 = O3 = 0 the composite is 42 |
| `Aqi.PM25At200` | src/pages/AqiForecast.jsx:377 | PM2.5 = 200 is contained in row [150.5, 250.4] → [201, 300] and in no earlier row, and scores 250 |
| `Aqi.PM25Gap` | src/pages/AqiForecast.jsx:377 | PM2.5 = 12.05 lies between the first two rows and scores 0, while PM2.5 = 12 scores 50 |
| `Aqi.AboveTopScoresZero` | src/pages/AqiForecast.jsx:377-379 | PM2.5 > 500.4, PM10 > 604 and O3 > 200 each score 0, and so does their composite |
| `Forecast.Normalize` | src/pages/AqiForecast.jsx:343-355 | exactly one record per PM2.5 entry, in order, with date and PM2.5 copied, PM10/O3 from the same position or 0, and predictedAQI the composite of the record's own readings; a missing PM2.5 series is the failed-fetch error |
| `Forecast.FetchForecast` | src/pages/AqiForecast.jsx:334-364 | a missing payload, `.data`, `.data.forecast` or `.data.forecast.daily` gives the error message "Forecast data not available" and no records; a missing PM2.5 series gives "Failed to fetch forecast data"; otherwise the normalised records |
| `Forecast.AbsentPM25StillScored` | src/pages/AqiForecast.jsx:344-353 | a day with no PM2.5 reading is scored from PM10 and O3 alone; a day with no reading at all scores 0, not absent |
| `Forecast.ZeroScoresZero` | src/pages/AqiForecast.jsx:400 | PM10 = 0 and O3 = 0 add nothing, so calculateAQI(x, 0, 0) is the PM2.5 sub-index of x |
| `Forecast.ModelAQIValues` | src/pages/AqiForecast.jsx:398-401 | one AQI per prediction, equal to the PM2.5 sub-index of `predicted_pm25 \|\| 0`, within [0, 500] |
| `Forecast.SeqMin` | src/pages/AqiForecast.jsx:411 | `Math.min` over the values: a member of the list and at most every member |
| `Forecast.SeqMax` | src/pages/AqiForecast.jsx:412 | `Math.max` over the values: a member of the list and at least every member |
| `Forecast.AxisFor` | src/pages/AqiForecast.jsx:408-414 | no values gives exactly [0, 100]; otherwise max is the least integer ≥ 1.1·v for every value v, and min is the greatest integer ≤ 0.9·v for every v, clamped at 0 |
| `Forecast.AxisEncloses` | src/pages/AqiForecast.jsx:404-415 | with non-negative values, 0 ≤ min ≤ max and every value lies in [min, max] |
| `Forecast.YAxisConfig` | src/pages/AqiForecast.jsx:404-408 | with both series empty the range is exactly {min: 0, max: 100} |
| `Forecast.AllZeroGivesFlatAxis` | src/pages/AqiForecast.jsx:408-414 | when every plotted value is 0 the range is [0, 0], a zero-height axis |
| `Forecast.ChartAxisEnclosesBothSeries` | src/pages/AqiForecast.jsx:398-415 | on records scored by calculateAQI and the model series, the shared range is ordered, non-negative, and contains every point of both charts |
| `Mood.MoodStatus` | src/pages/Dash_old.jsx:66-70 | Good exactly when score ≥ 0.7 (0.7 included), Moderate exactly when 0.5 ≤ score < 0.7 (0.5 included), Low exactly when score < 0.5 |
| `Mood.StatusTextDeterminesColor` | src/pages/Dash_old.jsx:67-69 | distinct statuses have distinct texts and distinct colours, so the colour is a function of the text |
| `Mood.MoodStatusMonotone` | src/pages/Dash_old.jsx:66-70 | a higher score never gets a lower status, with Low < Moderate < Good |
| `Mood.MoodTrend` | src/pages/MoodAnalysis.jsx:72-77 | Positive exactly when the average of focus, energy and mood is ≥ 0.7, Stable when it is in [0.5, 0.7), Needs Attention below 0.5 |
| `Mood.TrendIsStatusOfAverage` | src/pages/MoodAnalysis.jsx:74-76 | the trend's colour and class are those of getMoodStatus applied to the average |
| `Mood.MoodTrendPermutationInvariant` | src/pages/MoodAnalysis.jsx:73 | any permutation of focus, energy and mood gives the same trend |
| `Mood.TrendTextIdentifiesTrend` | src/pages/MoodAnalysis.jsx:74-76 | the three trend texts are pairwise distinct, so the text shown names the trend |
| `Mood.InitialGreeting` | src/pages/MoodAnalysis.jsx:24-32 | poor-air greeting exactly when AQI > 150, moderate exactly when 100 < AQI ≤ 150, good-air otherwise, including when the AQI is absent; exactly one applies |
| `Mood.GreetingMonotone` | src/pages/MoodAnalysis.jsx:24-32 | a larger AQI never gets a milder greeting |
| `Mood.GreetingTextIdentifiesGreeting` | src/pages/MoodAnalysis.jsx:26-31 | the three greeting texts are pairwise distinct |
| `Mood.ImpactLabel` | src/pages/MoodAnalysis.jsx:104 | High exactly when AQI > 100, Moderate exactly when 50 < AQI ≤ 100, Low otherwise, including when the AQI is absent |
| `Mood.ImpactMonotone` | src/pages/MoodAnalysis.jsx:104 | a larger AQI never gives a lower impact label, and an absent AQI gives the lowest |
| `Mood.ImpactTextIdentifiesImpact` | src/pages/MoodAnalysis.jsx:104 | the three impact texts are pairwise distinct |
| `Mood.GreetingAgreesWithImpact` | src/pages/MoodAnalysis.jsx:24-32 | the greeting warns about the air exactly when the impact label is High |
| `Mood.RenderRecommendations` | src/pages/MoodAnalysis.jsx:157-167 | reading the shown items' texts back gives the recommendations in their original order; item i is numbered i+1; the "no special precautions" notice appears exactly when nothing is listed |

## Left out

- The commented-out earlier version of the forecast component (src/pages/AqiForecast.jsx:1-250) is left out: it is not live code.
- React state, effects, loading and error rendering, chart options, colours and tables are left out: they are presentation.
- `formatDates` is left out: it depends on `Date` and the runtime locale.
- All HTTP calls are left out. This covers the model fetch (src/pages/AqiForecast.jsx:318), `fetchLocationData`, geolocation and the hourly refresh in src/App.jsx. The model takes their results as inputs.
- The Google Maps script loading, the theme persistence in localStorage and backend/server.py are left out. They are browser plumbing and foreign library calls (a SARIMAX model, pandas). backend/server.py is not part of this model.
- The chat companion is left out: it samples `Math.random` on a timer.
- The "Overall Mood Score" and per-score percentages are left out: they use `toFixed` text formatting.
- IEEE-754 double arithmetic is deliberately not modelled. Concentrations and the 0.9/1.1 factors are exact reals. Under doubles, `Math.ceil(100 * 1.1)` is 111 and (0.7+0.7+0.7)/3 falls just below 0.7. The model gives 110 and "Positive".
- Aqi.GetAQI: requires every row to have C_low < C_high. A degenerate row would make JavaScript produce `NaN`. The three tables in use satisfy this.
- Forecast.Normalize: array entries are present objects. A `null` entry inside a series is not modelled. In PM2.5 it would throw and be reported as a failed fetch; in PM10/O3 it would count as 0.
- Forecast.FetchForecast: models a fetch whose result replaces the records. On an error the page keeps whatever records it held before, and that state is not modelled.
- The API chart's `predictedAQI || 0` is modelled as the identity, because predictedAQI is always a whole number computed by `calculateAQI`.
- Forecast.ModelAQIValues: takes the list of predictions itself. The page stores the whole response body (src/pages/AqiForecast.jsx:319) and calls `.map` on it (lines 398 and 468). The forecasting server in this repository answers with an object, `{"predictions": [...]}` (backend/server.py:58), on which `.map` would throw during rendering. The model assumes the list arrives as an array.
- Forecast.YAxisConfig: its own contract states only the empty case. The range it computes is specified by `Forecast.AxisFor` and `Forecast.ChartAxisEnclosesBothSeries`.
