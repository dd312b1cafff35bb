/**
 * The training script file.py: `predict_and_classify`, the 95% train/test
 * split of the windows, and how the script combines them with the scaler.
 * Downloading, training and plotting are not modelled; the regressor is the
 * function `model` and the scaler's inverse transform the function `inverse`.
 */
module Script {
  import Windowing
  import opened Predictor

  /**
   * `predict_and_classify`: the raw model output for the last test window
   * (no inverse scaling here) and its trend against `lastRealPrice`.
   */
  function PredictAndClassify(model: seq<real> -> real, xTest: seq<seq<real>>, lastRealPrice: real,
                              threshold: real): (f: Forecast)
    requires |xTest| > 0
    requires lastRealPrice != 0.0
    ensures f.price == model(xTest[|xTest| - 1])
    ensures f.trend == Classify(RelativeChange(f.price, lastRealPrice), threshold)
  {
    var predPrice := model(xTest[|xTest| - 1]);
    Forecast(predPrice, Classify(RelativeChange(predPrice, lastRealPrice), threshold))
  }

  /** `int(n * 0.95)`: the number of windows used for training. */
  function SplitPoint(n: nat): (s: nat)
    ensures 100 * s <= 95 * n < 100 * s + 100
    ensures s <= n
    ensures n > 0 ==> s < n
    ensures n >= 2 ==> s > 0
  {
    n * 95 / 100
  }

  /** `xs[:split], xs[split:]`, with Python's clamping of an index past the end. */
  function SplitAt<T>(xs: seq<T>, split: nat): (r: (seq<T>, seq<T>))
    ensures r.0 + r.1 == xs
    ensures |r.0| == if split <= |xs| then split else |xs|
  {
    if split <= |xs| then (xs[..split], xs[split..]) else (xs, [])
  }

  /** The train/test split of windows and labels: a partition that keeps each window with its label. */
  lemma TrainTestPartition(xs: seq<seq<real>>, ys: seq<real>, split: nat, k: nat)
    requires |xs| == |ys| && split <= |xs|
    ensures SplitAt(xs, split).0 + SplitAt(xs, split).1 == xs
    ensures SplitAt(ys, split).0 + SplitAt(ys, split).1 == ys
    ensures k < split ==> SplitAt(xs, split).0[k] == xs[k] && SplitAt(ys, split).0[k] == ys[k]
    ensures k < |xs| - split ==> SplitAt(xs, split).1[k] == xs[split + k] && SplitAt(ys, split).1[k] == ys[split + k]
  {
  }

  /**
   * With more values than the window size, the script's test set is never
   * empty, so its last window (`X_test[-1]`) exists. That window ends just
   * before the last value of the series, whose label is `y[-1]`: the forecast
   * is made for the last known value, the one it is then compared with.
   */
  lemma {:induction false} TestSetNonEmpty(data: seq<real>, w: nat)
    requires |data| > w
    ensures var xs := Windowing.Windows(data, w);
            var test := SplitAt(xs, SplitPoint(|xs|)).1;
            |test| > 0 && test[|test| - 1] == data[|data| - w - 1..|data| - 1] &&
            test[|test| - 1] + [Windowing.Labels(data, w)[|xs| - 1]] == data[|data| - w - 1..]
  {
    var xs := Windowing.Windows(data, w);
    var n := |xs|;
    var split := SplitPoint(n);
    var test := SplitAt(xs, split).1;
    assert test == xs[split..];
    assert test[|test| - 1] == xs[n - 1];
    Windowing.WindowAt(data, w, n - 1);
    assert Windowing.Labels(data, w)[n - 1] == data[|data| - 1];
    assert data[|data| - w - 1..|data| - 1] + [data[|data| - 1]] == data[|data| - w - 1..];
  }

  /**
   * Lines 68-70 of file.py as written: the scaled last label `y[-1]` is passed
   * where `predict_and_classify` expects the last real price, and only the
   * predicted price is scaled back afterwards. The trend therefore compares
   * scaled values.
   */
  function ScriptForecastAsWritten(model: seq<real> -> real, xTest: seq<seq<real>>, yLastScaled: real,
                                   inverse: real -> real, threshold: real): (f: Forecast)
    requires |xTest| > 0
    requires yLastScaled != 0.0
    ensures f.price == inverse(model(xTest[|xTest| - 1]))
    ensures f.trend == Classify(RelativeChange(model(xTest[|xTest| - 1]), yLastScaled), threshold)
  {
    var scaled := PredictAndClassify(model, xTest, yLastScaled, threshold);
    Forecast(inverse(scaled.price), scaled.trend)
  }

  /**
   * The evident intent: compare the scaled-back prediction with the
   * scaled-back last price (`last_real_price`, computed on line 68), as
   * `predict_next` does.
   */
  function ScriptForecast(model: seq<real> -> real, xTest: seq<seq<real>>, yLastScaled: real,
                          inverse: real -> real, threshold: real): (f: Forecast)
    requires |xTest| > 0
    requires inverse(yLastScaled) != 0.0
    ensures inverse(yLastScaled) > 0.0 && threshold >= 0.0 ==>
              (f.trend == Up <==> f.price > inverse(yLastScaled) * (1.0 + threshold)) &&
              (f.trend == Down <==> f.price < inverse(yLastScaled) * (1.0 - threshold))
    ensures f.price == inverse(model(xTest[|xTest| - 1]))
  {
    var f := PredictNext(model, xTest, yLastScaled, inverse, threshold);
    if inverse(yLastScaled) > 0.0 && threshold >= 0.0 then
      TrendBand(f.price, inverse(yLastScaled), threshold);
      f
    else
      f
  }

  /**
   * Prices between 100 and 200 (inverse `x => 100 + 100 x`), last price 101
   * (scaled 0.01) and predicted price 100.9 (scaled 0.009): a fall of under
   * 0.1% in price, which is "Neutral", but a fall of 10% in scaled value, so
   * the script as written reports "Down".
   */
  lemma ScaledTrendDiffers()
    ensures var model := (window: seq<real>) => 0.009;
            var inverse := (x: real) => 100.0 + 100.0 * x;
            var xTest := [[0.01]];
            ScriptForecastAsWritten(model, xTest, 0.01, inverse, DefaultThreshold) == Forecast(100.9, Down) &&
            ScriptForecast(model, xTest, 0.01, inverse, DefaultThreshold) == Forecast(100.9, Neutral)
  {
  }
}
