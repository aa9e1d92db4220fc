# Agritech mock satellite backend — verified model of its deterministic core

The backend (`app.py`, a Flask service in "mock mode") makes up vegetation
(NDVI), weather and field-history data at random. The Dafny model covers
the deterministic logic beneath the random draws:

- **NDVI tables** (`ndvi.dfy`, module `NdviBands`). These are the four-band
  colour classification of `get_ndvi_color`, the five-band text of
  `get_ndvi_interpretation` and the three-band health label of a history
  entry. Each `if`/`elif` chain is proved equal to a lookup in a generic
  threshold table (`Tier`, `TierIndex`, `Lookup`). The model proves each
  chain total and monotone, shows where the boundary values land, and
  shows how the three tables agree.
- **Season** (`season.dfy`, module `Seasons`). This is `get_season`, with the
  month as a parameter instead of the clock.
- **Field analysis** (`analysis.dfy`, module `Analysis`). This is the
  deterministic part of `POST /analyze-field`. It covers the presence check
  on the JSON body, using Python truthiness and the meaning of `in` on
  dictionaries, lists and strings. It also covers the recommendation list,
  the clamped statistics and the assembly of the reply. Every random draw is
  a field of `AnalysisDraws`.
- **Field history** (`history.dfy`, module `History`). This is
  `GET /field-history`. A method builds the eight entries in a loop, twelve
  days apart, and sorts them by date. It then computes the trend and the
  rounded average. "Today" is a day number and the per-entry draws are
  parameters.
- `rounding.dfy` (module `Rounding`) models Python's `round(x, 2)` and
  `round(x, 1)` on exact reals. `wrappers.dfy` holds `Option`.

NDVI values are Dafny `real`s. A history entry keeps two NDVI fields.
`rawNdvi` is the unrounded draw, which the health label is computed from.
`ndvi` is the stored two-decimal value. `History.HealthFollowsUnroundedValue`
exhibits an entry labelled "Good" whose stored value the same table would
call "Moderate".

The presence check follows the code. A false body (`null`, `false`, `0`,
`""`, `[]`, `{}`) also gives 400. A list without the element `"bounds"` and a
string without the substring `bounds` give 400 too. A list or string that
does contain it gets past the check. The code then fails on `.get` and
returns 500. A number or `true` makes the `in` test itself raise, which also
returns 500. A dictionary that has "bounds" is not yet safe either: the
handler slices the value (`bounds[:2]`) for a log line inside its `try`, so
a "bounds" value that is neither a list nor a string (`null`, a number, a
boolean, a dictionary) also ends in the 500 reply.

## Model

| member | source | states |
|---|---|---|
| `Rounding.Round2` | app.py:88 | two-decimal rounding stays within half a hundredth of its input and yields a whole number of hundredths |
| `Rounding.Round1` | app.py:130 | one-decimal rounding stays within half a tenth of its input and yields a whole number of tenths |
| `Rounding.Round2OfHundredths` | app.py:153-154 | a value that already has two decimals is unchanged by rounding |
| `Rounding.Round2Idempotent` | app.py:254 | rounding a stored (already rounded) value again changes nothing |
| `Rounding.Round2Monotone` | app.py:88 | rounding preserves order, so rounded draws stay within the drawn range |
| `Rounding.Round1OfWhole` | app.py:130 | a whole percentage is unchanged by one-decimal rounding, so the health score is exact |
| `NdviBands.TierIndex` | app.py:21-28 | the row a value falls into is the first whose bound it strictly exceeds, or past the table when none |
| `NdviBands.Lookup` | app.py:21-28 | a table lookup returns the label of that row, or the fallback below every row |
| `NdviBands.TierIndexAntitone` | app.py:21-28 | a larger value never falls into a lower row of a threshold table |
| `NdviBands.TierIndexBetween` | app.py:21-28 | in a descending table the row is the one whose bound lies just below the value |
| `NdviBands.Classify` | app.py:21-28 | the get_ndvi_color band: its rank is the number of thresholds 0.3, 0.5, 0.7 the value strictly exceeds |
| `NdviBands.ClassifyIsTableLookup` | app.py:19-28 | the get_ndvi_color chain equals the lookup in the table (0.7 excellent, 0.5 good, 0.3 moderate, else poor); its rank counts the thresholds exceeded |
| `NdviBands.NdviColor` | app.py:19-28 | the class tag is one of excellent/good/moderate/poor, it is "poor" exactly at or below 0.3, and colour, label and tag come from one band |
| `NdviBands.TagsDistinct` | app.py:22-28 | different bands have different class tags |
| `NdviBands.ClassifyMonotone` | app.py:21-28 | v1 <= v2 implies the band of v1 ranks no higher than the band of v2 |
| `NdviBands.ThresholdsFallLow` | app.py:21-28 | 0.7, 0.5 and 0.3 themselves fall into the lower band, and values just above them do not |
| `NdviBands.Interpret` | app.py:296-307 | the interpretation band lies inside the get_ndvi_color band of the same value, and is the "low vegetation" text exactly for poor values above 0.1 |
| `NdviBands.InterpretIsTableLookup` | app.py:298-307 | the get_ndvi_interpretation chain equals the lookup in the five-row table (0.7, 0.5, 0.3, 0.1); the band's rank counts the thresholds exceeded |
| `NdviBands.Interpretation` | app.py:296-307 | the interpretation text is the text of the row the value falls into in the five-row table |
| `NdviBands.InterpretMonotone` | app.py:298-307 | a larger value never gets a lower interpretation band |
| `NdviBands.InterpretationAgreesAboveModerate` | app.py:298-303 | above 0.3 the interpretation falls into the same row as the colour band and is never one of the two poor texts |
| `NdviBands.HealthLabel` | app.py:257 | the history health label is the colour band with excellent and good merged into "Good" |
| `NdviBands.HealthLabelIsTableLookup` | app.py:257 | the health expression equals the lookup in the table (0.5 Good, 0.3 Moderate, else Poor); the label's rank counts the thresholds exceeded |
| `NdviBands.HealthLabelMonotone` | app.py:257 | a larger value never gets a lower health label |
| `Seasons.SeasonOf` | app.py:309-319 | for a month 1..12 the season is its quarter counted from December; any other number is Autumn |
| `Seasons.InQuarter` | app.py:312-319 | a month gets a season exactly when it lies in that season's three months |
| `Seasons.ThreeMonthsPerSeason` | app.py:311-319 | each season gets exactly three months: Dec-Feb, Mar-May, Jun-Aug, Sep-Nov |
| `Analysis.FalsyValues` | app.py:75 | the bodies `not data` rejects are exactly null, false, 0, "", [] and {} |
| `Analysis.HasSubstringOccurs` | app.py:75 | `'bounds' in data` on a string body holds exactly when "bounds" starts at some position of the string |
| `Analysis.CheckBody` | app.py:73-82 | only a dictionary with a "bounds" key passes. A missing or false body, or a dictionary without the key, is a 400 error. A non-empty list is a 400 error without the item "bounds" and the 500 path with it; a non-empty string likewise without and with the substring "bounds"; a non-zero number or `true` is always the 500 path. Nothing else reaches the 500 path |
| `Analysis.FirstTwo` | app.py:85 | slicing `bounds[:2]` succeeds exactly for lists and strings, giving a prefix of at most two items or characters; any other value raises |
| `Analysis.Stats` | app.py:151-158 | the mean is the value; the minimum is max(0.1, v - 0.2) and the maximum min(1.0, v + 0.15), each rounded to a whole number of hundredths within half a hundredth, so they never leave [0.1, 1.0]; the health score is the value in percent rounded to a whole number of tenths within 0.05; pixels and cloud cover are passed through |
| `Analysis.Recommendations` | app.py:97-126 | the handler's chain picks the advice list of exactly the get_ndvi_color band: 4 items above 0.3, 5 at or below |
| `Analysis.StatisticsBounds` | app.py:151-155 | for ndvi in [0.25, 0.85]: mean == ndvi and 0.1 <= min <= ndvi <= max <= 1.0; a two-decimal ndvi gives health_score == ndvi * 100 |
| `Analysis.AnalyzeField` | app.py:72-182 | a reply is a success iff the body passes the check and its "bounds" value is a list or a string; it is the 500 error iff the check raises or that value cannot be sliced; it is a 400 "No field bounds provided" iff bounds are missing. On success the value is the rounded draw; colour, status label and tag are get_ndvi_color of it; the interpretation, recommendations and statistics block follow from it; area is the rounded draw, crop, weather and next steps are as drawn and fixed; season and name follow from the month and the body |
| `Analysis.UnsliceableBoundsFail` | app.py:75-182 | a dictionary whose "bounds" value is null, a number, a boolean or a dictionary passes the presence check yet gets the 500 reply |
| `Analysis.AnalysisReportSound` | app.py:88-160 | with in-range draws, a successful reply has a two-decimal ndvi in [0.25, 0.85] and ordered clamped statistics. The health score is ndvi * 100. There are 5 recommendations exactly when the tag is "poor", otherwise 4 |
| `History.MakeEntry` | app.py:249-259 | an entry keeps its day and activity; its stored NDVI is the raw draw 0.3 + 0.5u rounded to a whole number of hundredths within half a hundredth; its health is the label of the raw value; rainfall is 20u and temperature 22 + 10u for their own draws u, each rounded to one decimal |
| `History.EntryRanges` | app.py:249-257 | a drawn entry's raw and stored NDVI lie in [0.3, 0.8] and the stored value has two decimals. Its health is "Poor" only when the draw is exactly 0. Rainfall lies in [0, 20] mm and temperature in [22, 32] degrees |
| `History.HealthFollowsUnroundedValue` | app.py:250-257 | the health label follows the unrounded draw. An entry drawn at 0.503 is labelled Good but stored as 0.5, which the table calls Moderate |
| `History.InsertByDate` | app.py:262 | inserting into a date-ordered list keeps it date-ordered and adds exactly the one entry |
| `History.InsertKeepsOrder` | app.py:262 | placing an entry between earlier-or-equal and later dates preserves date order |
| `History.SortByDate` | app.py:261-262 | the sort returns a date-ordered permutation of its input |
| `History.FirstOfSortedPermutation` | app.py:261-262 | the earliest entry of a strictly dated list comes first in any date-ordered arrangement of it |
| `History.SortedPermutationUnchanged` | app.py:248-262 | a strictly dated list is its only date-ordered permutation, so sorting the built history changes nothing |
| `History.ScheduleDates` | app.py:246-249 | the eight built dates strictly increase in 12-day steps, within [today - 90, today) |
| `History.ScheduleStoresHundredths` | app.py:254 | every stored NDVI of the built history has two decimals |
| `History.SumBounds` | app.py:277 | a sum of values within [lo, hi] lies between n*lo and n*hi |
| `History.MeanWithinRange` | app.py:277 | the unrounded mean lies between the smallest and the largest value |
| `History.RoundedMeanWithinRange` | app.py:277 | for two-decimal values, the mean rounded to two decimals still lies between the smallest and the largest value |
| `History.FieldHistory` | app.py:240-280 | the reply holds 8 entries, entry k built on day today-90+12k from the k-th draws, in build order after the sort. The trend is "improving" iff the last stored NDVI exceeds the first, else "stable". The average is the rounded mean and lies between the smallest and largest stored NDVI. The id defaults to "1" |

## Left out

- Flask routing, `jsonify`, CORS and the OPTIONS preflight reply of `/analyze-field` (app.py:1-7, 68-70). These are framework plumbing.
- The `/`, `/test-satellite`, `/weather` and `/health` handlers and the 404/500 error handlers. They return fixed payloads or independent random values, with no logic to verify.
- The random source and the clock. Every draw, the month and today's day number are parameters. `AnalysisDraws` and `EntryDraw` name the ranges they are drawn from.
- Floating point. NDVI and the other measurements are exact reals. `round` is modelled as rounding to the nearest step with ties going up. Python's round-half-even on binary floats is not modelled.
- String formatting. The default field name `Field_<n>` is kept as `Generated(n)`. Percentages, "days ago" and "°C" are kept as integers. Timestamps, `analysis_date` and the fixed "note", "data_type" and "resolution" strings are omitted.
- Dates are day numbers. Sorting on the `"%Y-%m-%d"` strings is taken to be sorting on days, which holds for four-digit years.
- `print` logging and the start-up code (app.py:9-14, 84-85, 174, 350-371). The output is not modelled; the slice `bounds[:2]` evaluated for the log line at app.py:85 is, because it can raise.
- Analysis.InternalError: the 500 reply of the exception path (app.py:177-182) carries no message text. It stands only for the bodies that make the code raise. Other runtime faults are not modelled.
- Analysis.CheckBody: the model assumes `request.json` yields `None` for an absent or non-JSON body, as Flask does before version 2.1. From 2.1 on, `request.json` raises for a body whose content type is not JSON, and the `except` at app.py:177 turns that into the 500 reply. The Flask version and bodies that do not decode are not part of this model.
- History.SortByDate: the contract states a date-ordered permutation but not the stability of Python's sort. Stability does not matter here, because the built dates are distinct. The sort works on a sequence value, since the list has no other alias in the handler.
- The `bounds` value is checked only for presence and sliced for the log line. Its coordinates are never read, in the code as in the model.
