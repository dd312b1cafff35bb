/**
 * The `SimpleChart` sparkline of frontend/src/components/TickerCard.jsx: the
 * last ten points of the history drawn as bars whose heights (in pixels)
 * normalise each close price between the minimum and maximum of the WHOLE
 * history. A missing history (null or undefined) is `None`.
 */
module SimpleChart {
  import opened Wrappers

  /** One point of the history. */
  datatype Point = Point(close: real)

  /** One rendered bar: its height and the close price in its tooltip. */
  datatype Bar = Bar(height: real, close: real)

  /** `slice(-10)`: at most this many bars. */
  const MaxBars: nat := 10

  function Closes(data: seq<Point>): (r: seq<real>)
    ensures |r| == |data|
    ensures forall k :: 0 <= k < |data| ==> r[k] == data[k].close
  {
    seq(|data|, k requires 0 <= k < |data| => data[k].close)
  }

  /** `Math.min(...)`: the least value, which occurs in the sequence. */
  function SeqMin(xs: seq<real>): (m: real)
    requires |xs| > 0
    ensures m in xs
    ensures forall k :: 0 <= k < |xs| ==> m <= xs[k]
  {
    if |xs| == 1 then xs[0]
    else
      var rest := SeqMin(xs[1..]);
      if xs[0] <= rest then xs[0] else rest
  }

  /** `Math.max(...)`: the greatest value, which occurs in the sequence. */
  function SeqMax(xs: seq<real>): (m: real)
    requires |xs| > 0
    ensures m in xs
    ensures forall k :: 0 <= k < |xs| ==> xs[k] <= m
  {
    if |xs| == 1 then xs[0]
    else
      var rest := SeqMax(xs[1..]);
      if xs[0] >= rest then xs[0] else rest
  }

  /** The height of a bar for `close` when the series spans `[lo, hi]`. */
  function Height(close: real, lo: real, hi: real): real {
    if hi - lo > 0.0 then (close - lo) / (hi - lo) * 60.0 + 10.0 else 35.0
  }

  /** Within a non-flat range, heights lie in [10, 70], from 10 at the bottom to 70 at the top. */
  lemma HeightBounds(close: real, lo: real, hi: real)
    requires lo <= close <= hi && lo < hi
    ensures 10.0 <= Height(close, lo, hi) <= 70.0
    ensures close == lo ==> Height(close, lo, hi) == 10.0
    ensures close == hi ==> Height(close, lo, hi) == 70.0
  {
    var t := (close - lo) / (hi - lo);
    assert t * (hi - lo) == close - lo;
    assert 0.0 <= t <= 1.0;
  }

  /** A higher close never gives a lower bar. */
  lemma HeightMonotone(c1: real, c2: real, lo: real, hi: real)
    requires c1 <= c2
    ensures Height(c1, lo, hi) <= Height(c2, lo, hi)
  {
  }

  /** The component: nothing for a missing or empty history, else one bar per point of `slice(-10)`. */
  function Chart(historicalData: Option<seq<Point>>): (r: Option<seq<Bar>>)
    ensures r.None? <==> historicalData.None? || |historicalData.value| == 0
    ensures r.Some? ==>
              var n := |historicalData.value|;
              |r.value| == (if n < MaxBars then n else MaxBars) &&
              forall i :: 0 <= i < |r.value| ==> r.value[i].close == historicalData.value[n - |r.value| + i].close
  {
    match historicalData
    case None => None
    case Some(data) =>
      if |data| == 0 then None
      else
        var lo := SeqMin(Closes(data));
        var hi := SeqMax(Closes(data));
        var shown := if |data| <= MaxBars then data else data[|data| - MaxBars..];
        Some(seq(|shown|, i requires 0 <= i < |shown| => Bar(Height(shown[i].close, lo, hi), shown[i].close)))
  }

  /**
   * Every bar height is the normalised close over the whole series: within
   * [10, 70] when the series is not flat, 10 at the series minimum, 70 at
   * its maximum, and 35 for every bar of a flat series.
   */
  lemma ChartHeights(data: seq<Point>, i: nat)
    requires |data| > 0
    requires i < |Chart(Some(data)).value|
    ensures var bar := Chart(Some(data)).value[i];
            var lo := SeqMin(Closes(data));
            var hi := SeqMax(Closes(data));
            (lo < hi ==> 10.0 <= bar.height <= 70.0) &&
            (lo < hi && bar.close == lo ==> bar.height == 10.0) &&
            (lo < hi && bar.close == hi ==> bar.height == 70.0) &&
            (lo == hi ==> bar.height == 35.0)
  {
    var bars := Chart(Some(data)).value;
    var lo := SeqMin(Closes(data));
    var hi := SeqMax(Closes(data));
    var j := |data| - |bars| + i;
    assert bars[i].close == data[j].close == Closes(data)[j];
    assert bars[i].height == Height(bars[i].close, lo, hi);
    if lo < hi {
      HeightBounds(bars[i].close, lo, hi);
    }
  }

  /** Bars keep the order of their close prices. */
  lemma ChartMonotone(data: seq<Point>, i: nat, j: nat)
    requires |data| > 0
    requires i < |Chart(Some(data)).value| && j < |Chart(Some(data)).value|
    requires Chart(Some(data)).value[i].close <= Chart(Some(data)).value[j].close
    ensures Chart(Some(data)).value[i].height <= Chart(Some(data)).value[j].height
  {
    var bars := Chart(Some(data)).value;
    HeightMonotone(bars[i].close, bars[j].close, SeqMin(Closes(data)), SeqMax(Closes(data)));
  }
}
