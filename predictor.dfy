/**
 * Next-price forecast and trend classification of ml/__pycache__/predictor.py.
 * The trained regressor and the min-max scaler are library objects; here they
 * are the functions `model` (a feature window to a scaled price) and `inverse`
 * (a scaled value back to a price).
 */
module Predictor {

  /** The trend labels the back end returns. */
  datatype Trend = Up | Down | Neutral {

    /** The label as sent to the front end. */
    function Name(): (s: string)
      ensures |s| > 0
    {
      match this
      case Up => "Up"
      case Down => "Down"
      case Neutral => "Neutral"
    }

    /** Position in the order Down < Neutral < Up. */
    function Rank(): (n: nat)
      ensures n <= 2
    {
      match this
      case Down => 0
      case Neutral => 1
      case Up => 2
    }
  }

  /** A forecast: the predicted price paired with its trend. */
  datatype Forecast = Forecast(price: real, trend: Trend)

  /** The default trend threshold, a relative change of 0.2%. */
  const DefaultThreshold: real := 0.002

  /**
   * The if/elif/else on the relative change: strictly above the threshold is
   * "Up", strictly below its negation (and not "Up") is "Down", the rest "Neutral".
   */
  function Classify(change: real, threshold: real): (t: Trend)
    ensures t == Up <==> change > threshold
    ensures t == Down <==> change <= threshold && change < -threshold
    ensures t == Neutral <==> -threshold <= change <= threshold
  {
    if change > threshold then Up
    else if change < -threshold then Down
    else Neutral
  }

  /** The comparisons are strict: a change of exactly +/- threshold, or none, is "Neutral". */
  lemma BoundaryIsNeutral(threshold: real)
    requires threshold >= 0.0
    ensures Classify(threshold, threshold) == Neutral
    ensures Classify(-threshold, threshold) == Neutral
    ensures Classify(0.0, threshold) == Neutral
  {
  }

  /** A larger change never gives a lower trend. */
  lemma ClassifyMonotone(c1: real, c2: real, threshold: real)
    requires c1 <= c2
    ensures Classify(c1, threshold).Rank() <= Classify(c2, threshold).Rank()
  {
  }

  /** The relative change `(predicted - last) / last`; the source does not guard the division. */
  function RelativeChange(predicted: real, last: real): (r: real)
    requires last != 0.0
    ensures r * last == predicted - last
  {
    (predicted - last) / last
  }

  /**
   * For a positive last price the trend is decided by a band around it:
   * "Up" above `last * (1 + threshold)`, "Down" below `last * (1 - threshold)`.
   */
  lemma TrendBand(predicted: real, last: real, threshold: real)
    requires last > 0.0 && threshold >= 0.0
    ensures Classify(RelativeChange(predicted, last), threshold) == Up
            <==> predicted > last * (1.0 + threshold)
    ensures Classify(RelativeChange(predicted, last), threshold) == Down
            <==> predicted < last * (1.0 - threshold)
  {
  }

  /**
   * `predict_next`: the model's output for the last test window, scaled back
   * to a price, and its trend against the scaled-back last label.
   */
  function PredictNext(model: seq<real> -> real, xTest: seq<seq<real>>, yLastScaled: real,
                       inverse: real -> real, threshold: real): (f: Forecast)
    requires |xTest| > 0
    requires inverse(yLastScaled) != 0.0
    ensures f.price == inverse(model(xTest[|xTest| - 1]))
    ensures f.trend == Classify(RelativeChange(f.price, inverse(yLastScaled)), threshold)
  {
    var predictedPrice := inverse(model(xTest[|xTest| - 1]));
    var lastRealPrice := inverse(yLastScaled);
    Forecast(predictedPrice, Classify(RelativeChange(predictedPrice, lastRealPrice), threshold))
  }
}
