/**
 * Sliding-window feature builder `create_windowed_data` (identical in
 * ml/__pycache__/predictor.py and file.py): every run of `w` consecutive
 * values that is followed by another value becomes a feature window,
 * labelled with that following value.
 */
module Windowing {

  /**
   * Reference definition of the windows: the first `w` values, then the
   * windows of the series without its first value.
   */
  function Windows<T>(data: seq<T>, w: nat): (r: seq<seq<T>>)
    ensures |r| == if |data| > w then |data| - w else 0
    ensures forall k :: 0 <= k < |r| ==> |r[k]| == w
    decreases |data|
  {
    if |data| <= w then [] else [data[..w]] + Windows(data[1..], w)
  }

  /** The labels: every value that has `w` values before it. */
  function Labels<T>(data: seq<T>, w: nat): (r: seq<T>)
    ensures |r| == if |data| > w then |data| - w else 0
    ensures forall k :: 0 <= k < |r| ==> r[k] == data[k + w]
  {
    if |data| > w then data[w..] else []
  }

  /** Window `k` is the slice `data[k .. k+w)`. */
  lemma {:induction false} WindowAt<T>(data: seq<T>, w: nat, k: nat)
    requires k + w < |data|
    ensures |Windows(data, w)| == |data| - w
    ensures Windows(data, w)[k] == data[k..k + w]
    decreases k
  {
    if k > 0 {
      WindowAt(data[1..], w, k - 1);
      assert data[1..][k - 1..k - 1 + w] == data[k..k + w];
    }
  }

  /** Consecutive windows overlap: drop the oldest value, append the label. */
  lemma WindowsOverlap<T>(data: seq<T>, w: nat, k: nat)
    requires w > 0 && k + 1 < |Windows(data, w)|
    ensures Windows(data, w)[k + 1] == Windows(data, w)[k][1..] + [Labels(data, w)[k]]
  {
    WindowAt(data, w, k);
    WindowAt(data, w, k + 1);
    assert data[k..k + w][1..] + [data[k + w]] == data[k + 1..k + 1 + w];
  }

  /** The first window followed by all the labels gives back the series. */
  lemma WindowsReassemble<T>(data: seq<T>, w: nat)
    requires |data| > w
    ensures Windows(data, w)[0] + Labels(data, w) == data
  {
  }

  /**
   * `create_windowed_data(data, w)`: a loop over `i` in `range(w, len(data))`
   * appending `data[i-w:i]` to the windows and `data[i]` to the labels.
   */
  method CreateWindowedData<T>(data: seq<T>, w: nat) returns (xs: seq<seq<T>>, ys: seq<T>)
    ensures xs == Windows(data, w)
    ensures ys == Labels(data, w)
  {
    xs, ys := [], [];
    var i := w;
    while i < |data|
      invariant w <= i
      invariant |xs| == |ys| == i - w <= |Windows(data, w)|
      invariant forall k :: 0 <= k < |xs| ==> xs[k] == data[k..k + w]
      invariant forall k :: 0 <= k < |ys| ==> ys[k] == data[k + w]
    {
      xs := xs + [data[i - w..i]];
      ys := ys + [data[i]];
      i := i + 1;
    }
    forall k | 0 <= k < |xs|
      ensures xs[k] == Windows(data, w)[k]
    {
      WindowAt(data, w, k);
    }
  }
}
