/**
 * The `TickerCard` component of frontend/src/components/TickerCard.jsx: four
 * state cells (`loading`, `error`, `prediction`, `historicalData`) driven by
 * the load effect, and the three guarded views rendered from them. The
 * asynchronous `loadPrediction` is split into its two halves: the restart
 * (the setters before the `await`) and the settlement (the try/catch/finally
 * once the fetch has resolved or rejected).
 */
module TickerCard {
  import opened Wrappers
  import SimpleChart

  /** The card's key: what the fetch is for and what removal reports. */
  datatype Subscription = Subscription(ticker: string, period: string, interval: string)

  /** The back end's prediction record, read-only here. */
  datatype Prediction = Prediction(predictedPrice: Option<real>, trend: Option<string>)

  /** How `fetchPrediction` ended: a record, or a rejection with its message. */
  datatype Outcome = Fetched(prediction: Prediction) | Failed(message: string)

  /** The three guarded blocks of the card body. */
  datatype View =
    | LoadingView
    | ErrorView(message: string)
    | SuccessView(prediction: Prediction, history: seq<SimpleChart.Point>)

  /** The number of mock history points requested after a successful fetch. */
  const HistoryLength: nat := 20

  /** JavaScript truthiness of the error cell: set and not the empty string. */
  predicate ErrorShown(error: Option<string>) {
    error.Some? && error.value != ""
  }

  class Card {
    var ticker: string
    var period: string
    var interval: string
    var loading: bool
    var error: Option<string>
    var prediction: Option<Prediction>
    var historicalData: seq<SimpleChart.Point>

    /** Every step that sets `loading` also clears `error`, so the two are never set together. */
    ghost predicate Valid()
      reads this
    {
      loading ==> error.None?
    }

    function Key(): (s: Subscription)
      reads this
      ensures s.ticker == ticker && s.period == period && s.interval == interval
    {
      Subscription(ticker, period, interval)
    }

    /** Mount: the initial `useState` values, then the effect's first run. */
    constructor (ticker: string, period: string, interval: string)
      ensures Valid()
      ensures Key() == Subscription(ticker, period, interval)
      ensures loading && error == None && prediction == None && historicalData == []
    {
      this.ticker, this.period, this.interval := ticker, period, interval;
      prediction := None;
      loading := true;
      error := None;
      historicalData := [];
    }

    /** The effect's restart: `setLoading(true)` and `setError(null)`; the old prediction and history stay. */
    method Start()
      modifies this
      ensures Valid()
      ensures loading && error == None
      ensures prediction == old(prediction) && historicalData == old(historicalData)
      ensures Key() == old(Key())
    {
      loading := true;
      error := None;
    }

    /** A re-render with new props: the effect runs again iff one of its three dependencies changed. */
    method Rerender(ticker: string, period: string, interval: string)
      requires Valid()
      modifies this
      ensures Valid()
      ensures Key() == Subscription(ticker, period, interval)
      ensures old(Key()) != Key() ==> loading && error == None
      ensures old(Key()) == Key() ==> loading == old(loading) && error == old(error)
      ensures prediction == old(prediction) && historicalData == old(historicalData)
    {
      var changed := Subscription(ticker, period, interval) != Key();
      this.ticker, this.period, this.interval := ticker, period, interval;
      if changed {
        Start();
      }
    }

    /**
     * The fetch has settled. On success the prediction is stored and then a
     * mock history of `HistoryLength` points for the ticker; on failure the
     * message is stored and no history is requested. Either way `loading`
     * ends false.
     */
    method Settle(outcome: Outcome, generateHistory: (string, nat) -> seq<SimpleChart.Point>)
      modifies this
      ensures Valid()
      ensures !loading
      ensures Key() == old(Key())
      ensures outcome.Fetched? ==>
                prediction == Some(outcome.prediction) &&
                historicalData == generateHistory(ticker, HistoryLength) &&
                error == old(error)
      ensures outcome.Failed? ==>
                error == Some(outcome.message) &&
                prediction == old(prediction) && historicalData == old(historicalData)
    {
      match outcome {
        case Fetched(data) =>
          prediction := Some(data);
          historicalData := generateHistory(ticker, HistoryLength);
        case Failed(message) =>
          error := Some(message);
      }
      loading := false;
    }

    /** `handleRemove`: one notification, carrying exactly the card's key. */
    method Remove() returns (notifications: seq<Subscription>)
      ensures notifications == [Subscription(ticker, period, interval)]
    {
      notifications := [Key()];
    }

    /**
     * The blocks rendered, in order: the spinner while `loading`, the error
     * while the error is truthy, the result only when a prediction is present
     * and neither of the others applies. At most one is ever shown.
     */
    function Views(): (vs: seq<View>)
      reads this
      requires Valid()
      ensures |vs| <= 1
      ensures LoadingView in vs <==> loading
      ensures forall m :: ErrorView(m) in vs <==> ErrorShown(error) && m == error.value
      ensures forall v :: v in vs && v.SuccessView? ==>
                prediction == Some(v.prediction) && v.history == historicalData && !loading && !ErrorShown(error)
      ensures prediction.Some? && !loading && !ErrorShown(error) ==> vs == [SuccessView(prediction.value, historicalData)]
    {
      (if loading then [LoadingView] else []) +
      (if ErrorShown(error) then [ErrorView(error.value)] else []) +
      (if prediction.Some? && !loading && !ErrorShown(error) then [SuccessView(prediction.value, historicalData)] else [])
    }
  }

  /** Mounting for AAPL and a successful fetch ends on the success view, with a 20-point history for AAPL. */
  method SuccessScenario(generateHistory: (string, nat) -> seq<SimpleChart.Point>)
  {
    var card := new Card("AAPL", "1mo", "1d");
    assert card.Views() == [LoadingView];
    var record := Prediction(Some(150.25), Some("up"));
    card.Settle(Fetched(record), generateHistory);
    assert card.Views() == [SuccessView(record, generateHistory("AAPL", 20))];
  }

  /** A rejected fetch shows its message and requests no history. */
  method FailureScenario(generateHistory: (string, nat) -> seq<SimpleChart.Point>)
  {
    var card := new Card("AAPL", "1mo", "1d");
    card.Settle(Failed("network timeout"), generateHistory);
    assert card.Views() == [ErrorView("network timeout")];
    assert card.historicalData == [];
  }

  /** Changing the interval of a loaded card shows the spinner; the old prediction is kept but hidden. */
  method ReloadScenario(generateHistory: (string, nat) -> seq<SimpleChart.Point>)
  {
    var card := new Card("AAPL", "1mo", "1d");
    var record := Prediction(Some(150.25), Some("up"));
    card.Settle(Fetched(record), generateHistory);
    card.Rerender("AAPL", "1mo", "1wk");
    assert card.Views() == [LoadingView];
    assert card.prediction == Some(record);
  }
}
