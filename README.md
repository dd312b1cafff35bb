# StockSight core logic in Dafny

StockSight is a landing page for a stock-prediction product: a React front end
whose ticker cards show a predicted price, a trend pill and a small bar chart,
fed by a Python back end that trains a random-forest regressor on sliding
windows of closing prices. This project models the small pieces of logic in it
and proves their properties:

- **Windowing** (`create_windowed_data`, in ml/__pycache__/predictor.py:11-16 and,
  identical, file.py:22-27): the loop that turns a price series into windows of
  `w` values, each labelled with the value that follows it. The method is
  proved against a recursive reference definition of the windows.
- **Predictor** (ml/__pycache__/predictor.py): the relative change of the
  predicted price against the last price and its classification into
  `"Up"`/`"Down"`/`"Neutral"`; `predict_next` with the regressor and the
  scaler's inverse transform as function parameters.
- **Script** (file.py): `predict_and_classify`, the 95% train/test split of the
  windows, and how the script feeds them to the classifier (see Findings).
- **TrendPill**, **SimpleChart**, **TickerCard** (frontend/src/components/TickerCard.jsx):
  the case-insensitive style/icon mapping, the bar-height normaliser, and the
  card as a class with the four state cells of the load lifecycle, its
  restart/settle events, its guarded views and its removal notification.
- **Faq** (frontend/src/pages/Home.jsx): the single-select accordion as a
  class with the one state cell `openFaq`.
- **Footer** (frontend/src/components/Footer.jsx): the quick-link anchors and
  the proof that they hit the page's section ids.
- **Text**: ASCII `toLowerCase` and first-occurrence `replace`, shared by the
  trend pill and the footer.

Two behaviours of the code a reader might not expect:

- A restart of a ticker card (mount, or a change of ticker, period or
  interval) sets only `loading` and `error` (TickerCard.jsx:69-70); the old
  prediction and history stay in their cells and are only hidden by the
  `!loading && !error` guard (TickerCard.jsx:132). `Card.Start` and
  `Card.Rerender` keep them, and `ReloadScenario` shows the spinner while the
  stale prediction is still stored.
- The chart's minimum and maximum are taken over the whole history
  (TickerCard.jsx:40-41), not over the ten bars shown; so the shown bars need
  not reach 10 or 70.

The forecast of file.py is made from the last test window, which ends just
before the last value of the series (`Script.TestSetNonEmpty`): the
"prediction" is for the last known closing price, the same value it is then
compared with.

## Model

| member | source | states |
|---|---|---|
| Windowing.Windows | ml/__pycache__/predictor.py:11-16 | there are max(0, n - w) windows and every window has exactly w values |
| Windowing.Labels | ml/__pycache__/predictor.py:15 | one label per window, label k is the value at k + w, i.e. the suffix data[w:] |
| Windowing.WindowAt | ml/__pycache__/predictor.py:13-14 | window k is the slice data[k .. k+w) |
| Windowing.WindowsOverlap | ml/__pycache__/predictor.py:13-15 | for w > 0, window k+1 is window k without its first value, followed by label k |
| Windowing.WindowsReassemble | ml/__pycache__/predictor.py:13-15 | the first window followed by all labels is the whole series |
| Windowing.CreateWindowedData | ml/__pycache__/predictor.py:11-16 | the append loop over range(w, len(data)) builds exactly the reference windows and labels (the same code is file.py:22-27) |
| Predictor.Classify | ml/__pycache__/predictor.py:30-35 | exactly one label: "Up" iff change > threshold, "Down" iff not Up and change < -threshold, "Neutral" iff -threshold <= change <= threshold |
| Predictor.BoundaryIsNeutral | ml/__pycache__/predictor.py:30-35 | with threshold >= 0, a change of exactly +threshold, -threshold or 0 is "Neutral" (strict comparisons) |
| Predictor.ClassifyMonotone | ml/__pycache__/predictor.py:30-35 | a larger change never gives a lower trend in the order Down < Neutral < Up |
| Predictor.RelativeChange | ml/__pycache__/predictor.py:28 | for a nonzero last price, change * last == predicted - last |
| Predictor.TrendBand | ml/__pycache__/predictor.py:28-35 | for a positive last price and a non-negative threshold: "Up" iff predicted > last * (1 + threshold), "Down" iff predicted < last * (1 - threshold) |
| Predictor.PredictNext | ml/__pycache__/predictor.py:23-37 | the price is the inverse-scaled model output for the last test window, paired with the trend of its change against the inverse-scaled last label |
| Script.PredictAndClassify | file.py:37-47 | the price is the raw model output for the last test window (no inverse scaling), paired with the trend of its change against the given last price |
| Script.SplitPoint | file.py:60 | the split is floor(0.95 * n): at most n, below n for any non-empty set and positive from 2 windows on |
| Script.SplitAt | file.py:61-62 | the two slices concatenate back to the input, the first holding min(split, n) items |
| Script.TrainTestPartition | file.py:60-62 | windows and labels are split at the same point: a partition of each that keeps every window with its label |
| Script.TestSetNonEmpty | file.py:57-62 | with more values than the window size the test set is non-empty, and its last window ends just before the series' last value |
| Script.ScriptForecastAsWritten | file.py:67-70 | as written: the scaled-back model output, with the trend computed from the scaled output against the scaled last label |
| Script.ScriptForecast | file.py:67-70 | corrected: the trend compares real prices, so for a positive last price and a non-negative threshold "Up"/"Down" mean above/below the threshold band around it |
| Script.ScaledTrendDiffers | file.py:67-70 | for prices 100..200, last 101 and prediction 100.9, the script as written says "Down" where the real-price trend is "Neutral" |
| TrendPill.TrendStyle | frontend/src/components/TickerCard.jsx:7-16 | success style iff the lower-cased label is "up", danger iff "down", muted otherwise (including an absent label) |
| TrendPill.TrendIcon | frontend/src/components/TickerCard.jsx:18-27 | TrendingUp iff the lower-cased label is "up", TrendingDown iff "down", Minus otherwise |
| TrendPill.PillLabel | frontend/src/components/TickerCard.jsx:32 | the label unchanged when present and non-empty, else "Neutral" |
| TrendPill.StyleMatchesIcon | frontend/src/components/TickerCard.jsx:7-27 | style and icon always pick the same case |
| TrendPill.CaseInsensitive | frontend/src/components/TickerCard.jsx:8-19 | labels equal up to letter case get the same style and icon |
| TrendPill.UpInAnyCase | frontend/src/components/TickerCard.jsx:7-27 | "UP", "Up" and "up" all get the success style and the TrendingUp icon |
| TrendPill.BackendLabels | frontend/src/components/TickerCard.jsx:7-32 | the back end's "Up", "Down", "Neutral" get the success, danger and muted styles, and are shown as sent |
| SimpleChart.SeqMin | frontend/src/components/TickerCard.jsx:40 | the minimum occurs in the series and is at most every value |
| SimpleChart.SeqMax | frontend/src/components/TickerCard.jsx:41 | the maximum occurs in the series and is at least every value |
| SimpleChart.HeightBounds | frontend/src/components/TickerCard.jsx:47 | for lo <= close <= hi and lo < hi, the height is in [10, 70], 10 at lo and 70 at hi |
| SimpleChart.HeightMonotone | frontend/src/components/TickerCard.jsx:47 | a higher close never gives a lower bar |
| SimpleChart.Chart | frontend/src/components/TickerCard.jsx:37-58 | nothing for a missing or empty history; otherwise min(10, n) bars taken from the last points in their order |
| SimpleChart.ChartHeights | frontend/src/components/TickerCard.jsx:40-47 | with min/max over the whole series: heights in [10, 70], series min at 10 and max at 70; 35 for every bar of a flat series |
| SimpleChart.ChartMonotone | frontend/src/components/TickerCard.jsx:47 | rendered bars keep the order of their close prices |
| TickerCard.Card.constructor | frontend/src/components/TickerCard.jsx:61-70 | a mounted card is loading, with no error, no prediction and an empty history |
| TickerCard.Card.Start | frontend/src/components/TickerCard.jsx:69-70 | a restart sets loading and clears the error, leaving prediction and history as they were |
| TickerCard.Card.Rerender | frontend/src/components/TickerCard.jsx:67-88 | the lifecycle restarts iff ticker, period or interval changed; otherwise the state is unchanged |
| TickerCard.Card.Settle | frontend/src/components/TickerCard.jsx:72-84 | on success the prediction and a 20-point history for the ticker are stored; on failure only the message; loading ends false either way |
| TickerCard.Card.Remove | frontend/src/components/TickerCard.jsx:90-92 | exactly one removal notification, carrying the card's {ticker, period, interval} |
| TickerCard.Card.Views | frontend/src/components/TickerCard.jsx:113-132 | at most one view: loading iff loading, error iff the error is truthy, success only with a prediction, not loading and no error |
| Faq.Toggled | frontend/src/pages/Home.jsx:267 | after a click on i, i is open iff it was closed, and no other entry is open |
| Faq.ToggleTwice | frontend/src/pages/Home.jsx:267 | clicking the same entry twice restores its open/closed status |
| Faq.ChevronOf | frontend/src/pages/Home.jsx:270 | ChevronUp iff the entry is open |
| Faq.AnswersShown | frontend/src/pages/Home.jsx:263-276 | one flag per entry, answer i rendered iff openFaq == i |
| Faq.AtMostOneAnswer | frontend/src/pages/Home.jsx:263-276 | exactly one answer is rendered when an entry is open, none otherwise |
| Faq.Accordion.constructor | frontend/src/pages/Home.jsx:48 | initially no entry is open |
| Faq.Accordion.Click | frontend/src/pages/Home.jsx:267 | the click applies the toggle rule and keeps openFaq null or a valid index into the five entries |
| Text.Lower | frontend/src/components/TickerCard.jsx:8 | same length, every ASCII letter lower-cased in place |
| Text.ReplaceFirst | frontend/src/components/Footer.jsx:54 | same length, and the string is unchanged when the pattern does not occur |
| Text.ReplaceFirstAt | frontend/src/components/Footer.jsx:54 | exactly the first occurrence of the pattern is replaced |
| Footer.Href | frontend/src/components/Footer.jsx:54 | the href is one character longer than the item and starts with '#' |
| Footer.HrefAt | frontend/src/components/Footer.jsx:54 | only the first space becomes '-'; every other character is the item's, lower-cased |
| Footer.HrefWithoutSpace | frontend/src/components/Footer.jsx:54 | an item without spaces is only lower-cased |
| Footer.QuickLinks | frontend/src/components/Footer.jsx:51-59 | one link per item, in list order, keyed and labelled by the item |
| Footer.QuickLinkHrefs | frontend/src/components/Footer.jsx:51-54 | the four items yield #home, #features, #get-started and #faq |
| Footer.QuickLinksHitSections | frontend/src/pages/Home.jsx:88-245 | each quick link's anchor is '#' followed by the id of the section it names |

## Findings

| source | as written | input that shows it | evidently intended | confidence | as-written member | corrected member |
|---|---|---|---|---|---|---|
| file.py:68-69 | the scaled last label `y[-1]` is passed as `last_real_price`, so the trend compares min-max scaled values | prices spanning 100..200, last price 101 (scaled 0.01), predicted 100.9 (scaled 0.009): scaled change -10% gives "Down" | compare the real prices, using the `last_real_price` computed on line 68 and the scaled-back prediction: change -0.099%, "Neutral" | high (not executed) | Script.ScriptForecastAsWritten | Script.ScriptForecast |

## Left out

- Downloading prices (yfinance), training and running the random forest, and the min-max scaler are library calls: the regressor is a function parameter `model`, the inverse transform a function parameter `inverse`.
- The script body of file.py apart from the split and the forecast (printing, plotting) and app.py's HTTP handler are not modelled.
- Predictor.RelativeChange: requires a nonzero last price; numpy would divide by zero to an infinity or NaN instead, floating point is not modelled.
- Predictor.PredictNext: requires a nonzero scaled-back last price and a non-empty test set, for the same reasons (Python would raise on `X_test[-1]` of an empty set).
- Script.PredictAndClassify: requires a nonzero last price and a non-empty test set, as above.
- Script.ScriptForecastAsWritten: requires a nonzero scaled last label; a last price equal to the series minimum scales to 0 and would divide by zero.
- Script.SplitPoint: computes int(n * 0.95) exactly as n * 95 / 100; the rounding of the floating-point product is not modelled.
- Windowing.CreateWindowedData: the window size is a natural number; Python's behaviour for a negative window size is not modelled.
- Text.Lower: lower-cases ASCII letters only; JavaScript's full Unicode case mapping is not modelled.
- TickerCard: `fetchPrediction` and `generateMockHistoricalData` live in a module that is not part of this model; a fetch is an `Outcome` (a record or a rejection message) and the history generator a function parameter.
- TickerCard: asynchrony is modelled as discrete events (restart, settle); overlapping in-flight fetches and late responses from an old key are not modelled beyond the fact that `Settle` needs no preceding `Start`.
- TickerCard: `console.error`, `toFixed(2)`, `toLocaleTimeString` and the rest of the markup are display only; chart heights are reals, not floating-point numbers.
- Header.jsx, App.jsx and the rest of Home.jsx (animations, copy, scroll buttons) are layout and DOM side effects.
