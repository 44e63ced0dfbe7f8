/**
 * The feature builder and the prediction guards of `CryptoPredictionModel`
 * (ml_model.py). Prices are an opaque type `P`: nothing here does arithmetic
 * on them. The trained regressor is a function parameter, and so is the
 * 30-day download.
 */
module MlModel {
  import opened Common

  /** The training set: `windows[k]` is the input for `targets[k]`. */
  datatype Features<P> = Features(windows: seq<seq<P>>, targets: seq<P>)

  /**
   * `f` is the sliding-window training set of `prices`: window k holds the
   * `lookback` prices starting at k, and its target is the price right after.
   */
  ghost predicate SlidingWindows<P>(prices: seq<P>, lookback: nat, f: Features<P>) {
    && lookback <= |prices|
    && |f.windows| == |prices| - lookback
    && |f.targets| == |prices| - lookback
    && (forall k :: 0 <= k < |f.windows| ==> f.windows[k] == prices[k..k + lookback])
    && (forall k :: 0 <= k < |f.targets| ==> f.targets[k] == prices[k + lookback])
  }

  /**
   * `prepare_features`: `None` (Python's `(None, None)`) when there is no
   * data or fewer than `lookback + 1` prices; otherwise one window per price
   * after the first `lookback`, built by appending in a loop.
   */
  method PrepareFeatures<P>(data: Option<seq<P>>, lookback: nat) returns (r: Option<Features<P>>)
    ensures r.None? <==> data.None? || |data.value| < lookback + 1
    ensures r.Some? ==> SlidingWindows(data.value, lookback, r.value)
  {
    if data.None? || |data.value| < lookback + 1 {
      return None;
    }
    var prices := data.value;
    var xs: seq<seq<P>> := [];
    var ys: seq<P> := [];
    var i := lookback;
    while i < |prices|
      invariant lookback <= i <= |prices|
      invariant |xs| == i - lookback && |ys| == i - lookback
      invariant forall k :: 0 <= k < |xs| ==> xs[k] == prices[k..k + lookback]
      invariant forall k :: 0 <= k < |ys| ==> ys[k] == prices[k + lookback]
    {
      xs := xs + [prices[i - lookback..i]];
      ys := ys + [prices[i]];
      i := i + 1;
    }
    return Some(Features(xs, ys));
  }

  /** Every window has exactly `lookback` prices. */
  lemma WindowLength<P>(prices: seq<P>, lookback: nat, f: Features<P>, k: nat)
    requires SlidingWindows(prices, lookback, f)
    requires k < |f.windows|
    ensures |f.windows[k]| == lookback
  {
  }

  /**
   * Consecutive windows overlap: window k+1 is window k without its first
   * price, followed by target k.
   */
  lemma {:induction false} WindowsOverlap<P>(prices: seq<P>, lookback: nat, f: Features<P>, k: nat)
    requires SlidingWindows(prices, lookback, f)
    requires lookback > 0
    requires k + 1 < |f.windows|
    ensures f.windows[k + 1] == f.windows[k][1..] + [f.targets[k]]
  {
    var w, w' := f.windows[k], f.windows[k + 1];
    assert w == prices[k..k + lookback];
    assert w' == prices[k + 1..k + 1 + lookback];
    assert f.targets[k] == prices[k + lookback];
    forall j | 0 <= j < lookback
      ensures w'[j] == (w[1..] + [f.targets[k]])[j]
    {
      if j < lookback - 1 {
        assert w'[j] == prices[k + 1 + j] == w[j + 1];
      }
    }
  }

  /** The training set of a price series is unique. */
  lemma SlidingWindowsUnique<P>(prices: seq<P>, lookback: nat, f: Features<P>, g: Features<P>)
    requires SlidingWindows(prices, lookback, f)
    requires SlidingWindows(prices, lookback, g)
    ensures f == g
  {
  }

  /** The output of `predict_price` when every guard passes. */
  datatype Forecast<P> = Forecast(
    symbol: string,
    recentPrices: seq<P>,
    currentPrice: P,
    predictedPrice: P,
    predictionDate: string)

  /** The number of recent closing prices the regressor takes. */
  const RecentDays: nat := 5

  /** pandas `tail(n)`: the last `n` elements, or all of them when there are fewer. */
  function Tail<P>(s: seq<P>, n: nat): (t: seq<P>)
    ensures |t| == if |s| < n then |s| else n
    ensures forall j :: 0 <= j < |t| ==> t[j] == s[|s| - |t| + j]
  {
    if |s| < n then s else s[|s| - n..]
  }

  /**
   * The early returns of `predict_price`. `models` is the table of loaded
   * models; `download` is what the 30-day download of `symbol` gives (its
   * closing prices, or `None`), and `downloaded` tells whether that download
   * was made at all. `regress` is the trained model's prediction and
   * `predictionDate` the formatted date `days_ahead` days from now.
   */
  method PredictPrice<M, P>(
    models: map<string, M>,
    symbol: string,
    download: Option<seq<P>>,
    regress: (M, seq<P>) -> P,
    predictionDate: string)
    returns (r: Option<Forecast<P>>, downloaded: bool)
    ensures downloaded <==> symbol in models
    ensures r.Some? <==> symbol in models && download.Some? && |download.value| >= RecentDays
    ensures r.Some? ==>
      var prices := download.value;
      && r.value.symbol == symbol
      && r.value.recentPrices == prices[|prices| - RecentDays..]
      && r.value.currentPrice == prices[|prices| - 1]
      && r.value.predictedPrice == regress(models[symbol], r.value.recentPrices)
      && r.value.predictionDate == predictionDate
  {
    if symbol !in models {
      return None, false;
    }
    downloaded := true;
    if download.None? {
      return None, downloaded;
    }
    var recent := Tail(download.value, RecentDays);
    if |recent| < RecentDays {
      return None, downloaded;
    }
    var model := models[symbol];
    var prediction := regress(model, recent);
    var current := download.value[|download.value| - 1];
    r := Some(Forecast(symbol, recent, current, prediction, predictionDate));
  }
}
