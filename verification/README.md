# Race Control weather: tyre-strategy model

A Dafny model of the decision logic in the "Race Control HQ" dashboard
(`op.py`). The dashboard fetches a 15-minute weather forecast for a circuit,
keeps the samples from 15 minutes ago to 3 hours ahead, and for each sample
estimates a track temperature, classifies the track as DRY, DAMP or WET, and
recommends a tyre (SOFT, MED/HARD, SLICKS/INTER or INTER/WET). It also
assigns a colour to each condition, which it never displays.
Rows whose recommendation mentions a wet-weather tyre are shaded dark red.

Modules:

- `Forecast` (`forecast.dfy`): the forecast row, the time window around `now`
  and its properties (membership, order preservation, idempotence).
- `Strategy` (`strategy.dfy`): the track-temperature estimate, the three-way
  condition, and the tyre/colour choice of `get_strategy`.
- `Highlight` (`highlight.dfy`): Python's substring `in`, and the
  `highlight_strategy` row styling built on it.
- `Table` (`table.dfy`): the table of strategies for the windowed forecast.

Time is whole seconds since the epoch; `now` is a parameter. Every measured
quantity is an exact `real`. The condition thresholds are those of the code:
precipitation exactly 0 is dry, non-zero precipitation below 0.2 mm is damp,
0.2 mm and above is wet, with the constant 0.2 of op.py:68 modelled exactly.

## Model

| member | source | states |
|---|---|---|
| Forecast.Window | op.py:54 | a row is kept iff its time lies in [now − 900 s, now + 10800 s]; the result is never longer than the input |
| Forecast.WindowIsSubsequence | op.py:54 | the window is an order-preserving subsequence of the forecast |
| Forecast.WindowIdempotent | op.py:54 | filtering twice with the same `now` gives the same rows as filtering once |
| Forecast.WindowAppend | op.py:54 | the filter is row-wise: filtering a concatenation concatenates the filtered parts |
| Forecast.WindowKeepsAllInside | op.py:54 | a forecast lying wholly inside the window is returned unchanged |
| Strategy.TrackTemp | op.py:59-61 | the estimate is at least air temperature minus 0.1·wind speed, and equals it whenever precipitation is non-zero (sun heating −2 is clamped away) |
| Strategy.Classify | op.py:64-75 | DRY iff precipitation is 0, DAMP iff it is negative or strictly between 0 and 0.2, WET iff it is at least 0.2 |
| Strategy.GetStrategy | op.py:57-75 | SOFT iff dry and track estimate below 15, MED/HARD iff dry and at least 15, SLICKS/INTER with orange iff damp, INTER/WET with red iff wet, green iff dry; the estimate reported is TrackTemp |
| Strategy.TyreDeterminesConditionAndColour | op.py:64-75 | the chosen tyre alone determines the condition, and the condition the colour |
| Strategy.ConditionIsTotalSplit | op.py:64-75 | the bands "exactly 0", "non-zero and below 0.2" and "at least 0.2" cover every value and are pairwise disjoint, and Classify names exactly the band a value lies in |
| Strategy.NegativePrecipIsDamp | op.py:64-71 | a negative reading is not rejected: it gives DAMP, SLICKS/INTER, orange |
| Strategy.ClassifyMonotone | op.py:64-75 | for non-negative readings, more precipitation never gives a drier condition |
| Strategy.ClassifyNotMonotoneBelowZero | op.py:64-71 | without that premise the order breaks: −1 mm is DAMP while 0 mm is DRY |
| Strategy.TrackTempNonIncreasingInWind | op.py:59-61 | with all other fields fixed, more wind never raises the estimate |
| Strategy.TrackTempNonDecreasingInAir | op.py:59-61 | with all other fields fixed, warmer air never lowers the estimate |
| Strategy.TrackTempNonIncreasingInCloud | op.py:60-61 | with all other fields fixed, more low or mid cloud never raises the estimate, on every row |
| Strategy.DryTrackTempBounds | op.py:60-61 | on a dry row with cloud cover in 0..100 %, the sun adds between 0 and 10 degrees and is not clamped |
| Strategy.ClearSkySoftThreshold | op.py:59-66 | on a dry cloudless row, SOFT is chosen iff temp + 10 − 0.1·wind < 15 |
| Highlight.Contains | op.py:116 | the substring test holds iff the pattern occurs at some position of the text |
| Highlight.HighlightStrategy | op.py:115-117 | one style per cell, all identical; the row contains the shade iff the strategy cell mentions WET or INTER, otherwise every style is empty |
| Highlight.WetLabelsAreNonDry | op.py:66-74 | of the four tyre labels, exactly SLICKS/INTER and INTER/WET mention WET or INTER, the two non-dry choices |
| Highlight.ShadedIffNotDry | op.py:115-117 | a displayed row is shaded in every cell iff its forecast row is not dry, and unstyled in every cell iff it is dry |
| Table.ShadedTableRows | op.py:112-119 | for every row of the windowed table, its strategy label mentions WET or INTER (so the row is shaded) iff that forecast row has non-zero precipitation |
| Table.StrategyTable | op.py:112 | the table holds one strategy per windowed forecast row, in the same order, and every forecast row inside the window has its strategy in the table |

## Left out

- Fetching the forecast (op.py:13-51): HTTP calls through a caching and retrying client library; the model starts from a sequence of rows.
- Building the data frame (op.py:33-51) and the data-frame `apply` and `style.apply` plumbing (op.py:112, 119): the `apply` of op.py:112 is modelled by `Table.StrategyTable` over a sequence; the `style.apply` of op.py:119 is modelled one row at a time by `Highlight.HighlightStrategy` and `Highlight.ShadedIffNotDry`, and for the whole table only through the strategy labels (`Table.ShadedTableRows`), not as a styled table value.
- Display formatting (op.py:77-81): `strftime`, `round` and the text labels of the seven output columns are not modelled; the model returns the condition, tyre and unrounded track estimate instead (the page shows the estimate only as rounded text).
- The Streamlit page, sidebar inputs, cache clearing, the "current conditions" cards that read the first windowed row, the rain chart and the catch-all error message (op.py:9, 84-126): user interface.
- Floating point: the service delivers 32-bit floats and Python compares them with the constants 0, 0.2 and 15, of which only 0.2 is a float; NaN and rounding are not modelled, every quantity is an exact real.
- The wall clock (op.py:52): `now` is a parameter, and timestamps are whole seconds rather than nanosecond timestamps.
- Highlight.HighlightStrategy: models the styled row as the seven displayed cells with the strategy label in the last one, rather than a labelled series looked up by column name.
- Strategy.GetStrategy: also returns `color`, which the program computes and then discards (op.py:67, 71, 75 are never part of the returned row); the only styling the page applies is the row shade of op.py:117.
- Table.StrategyTable: an empty window aborts the page at op.py:102, so the empty table is never displayed; the model returns the empty table for that case.
