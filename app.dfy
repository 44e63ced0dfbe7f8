/**
 * `CryptoPredictorApp` (static/js/app.js) as a state machine. Each DOM
 * element the class touches is reduced to the field it encodes; each
 * `await fetch(...)` is a `Fetch` parameter of the handler that makes it,
 * and the requests made are logged in `requests`. Handlers run one after
 * another: nothing in the script cancels or tags a request, so a late reply
 * simply overwrites what an earlier one drew.
 */
module App {
  import opened Common
  import opened AppView

  /** A request the client sends. */
  datatype Request =
    | PredictRequest(crypto: string)
    | AnalyzeRequest(crypto: string, currentPrice: real, predictedPrice: real)
    | HistoryRequest
    | ChartRequest(crypto: string, days: int)

  /** The text of the `analysisOutput` panel. */
  datatype AnalysisView =
    | FromMarkup           // whatever the page shipped with
    | AwaitingPrediction   // "generate a prediction first" (grey), after a forecast starts
    | ReadyToAnalyze       // "prediction succeeded, click Get AI Insight"
    | PredictionRequired   // the red note when there is no forecast to analyse
    | Analyzing            // while the analysis request is out
    | Analysis(text: string)
    | AnalysisError(message: string)

  /** The reply body of `/api/history`: its `predictions` member, possibly null. */
  type HistoryFetch = Fetch<Option<seq<HistoryRecord>>>

  /** The chart after `loadChart` for `crypto`: redrawn on success, left alone otherwise. */
  function ChartAfterLoad(chart: Option<ChartView>, crypto: string, dark: bool, outcome: Fetch<ChartPayload>): Option<ChartView>
  {
    if crypto != "" && outcome.Ok? then Some(ChartFor(outcome.payload.data, outcome.payload.crypto, dark)) else chart
  }

  /** The requests `loadChart(days)` makes: none without a selected symbol. */
  function ChartRequests(crypto: string, days: int): (rs: seq<Request>)
    ensures crypto == "" <==> rs == []
  {
    if crypto == "" then [] else [ChartRequest(crypto, days)]
  }

  class CryptoPredictorApp {
    var currentCrypto: string
    var isDarkMode: bool
    /** The `darkMode` entry of localStorage. */
    var storedDarkMode: Option<string>
    var currentPredictionData: Option<PredictionData>
    var predictEnabled: bool
    var overlayVisible: bool
    var analyzeEnabled: bool
    var analysis: AnalysisView
    var errorVisible: bool
    var errorText: string
    var resultVisible: bool
    var result: Option<ResultView>
    var history: HistoryView
    /** The `totalPredictions` counter; `None` while it shows the page's own text. */
    var totalPredictions: Option<nat>
    /** `this.chart`, and the number of Chart.js instances not yet destroyed. */
    var chart: Option<ChartView>
    var liveCharts: nat
    /** The period button `handleChartPeriod` last styled as selected. */
    var highlightedPeriod: Option<int>
    /** The period of the button the page marks `active`; no code ever changes it. */
    const activePeriod: Option<int>
    var requests: seq<Request>

    /**
     * At most one live chart, and exactly one while `this.chart` is set;
     * the overlay is up exactly while the predict button is disabled; the
     * analyze button is enabled only with a forecast to analyse.
     */
    ghost predicate Valid()
      reads this
    {
      && liveCharts == (if chart.Some? then 1 else 0)
      && overlayVisible == !predictEnabled
      && (analyzeEnabled ==> currentPredictionData.Some?)
    }

    /**
     * `constructor`: read the stored theme, then `init`. The page is assumed
     * to start with the analyze button disabled, the predict button enabled
     * and no error, result or overlay shown.
     */
    constructor (stored: Option<string>, markedActive: Option<int>,
                 historyReply: HistoryFetch, chartReply: Fetch<ChartPayload>, statsReply: HistoryFetch)
      ensures Valid()
      ensures currentCrypto == "BTC" && activePeriod == markedActive
      ensures isDarkMode == ReadDarkMode(stored) && storedDarkMode == stored
      ensures currentPredictionData == None && !analyzeEnabled && predictEnabled
      ensures !errorVisible && !resultVisible
      ensures history == HistoryAfter(historyReply)
      ensures chart == ChartAfterLoad(None, "BTC", isDarkMode, chartReply)
      ensures totalPredictions == TotalAfter(None, statsReply)
      ensures requests == [HistoryRequest, ChartRequest("BTC", 30), HistoryRequest]
    {
      chart := None;
      liveCharts := 0;
      currentCrypto := "BTC";
      isDarkMode := ReadDarkMode(stored);
      storedDarkMode := stored;
      currentPredictionData := None;
      predictEnabled := true;
      overlayVisible := false;
      analyzeEnabled := false;
      analysis := FromMarkup;
      errorVisible := false;
      errorText := "";
      resultVisible := false;
      result := None;
      history := Unrendered;
      totalPredictions := None;
      highlightedPeriod := None;
      activePeriod := markedActive;
      requests := [];
      new;
      Init(historyReply, chartReply, statsReply);
    }

    /**
     * `init`: apply the theme (no chart exists yet, so nothing is
     * reloaded), then load the history, a 30-day chart of the current
     * symbol and the statistics; the portfolio loader is an empty
     * placeholder.
     */
    method Init(historyReply: HistoryFetch, chartReply: Fetch<ChartPayload>, statsReply: HistoryFetch)
      requires Valid() && chart == None
      modifies this`history, this`chart, this`liveCharts,
               this`totalPredictions, this`requests
      ensures Valid()
      ensures history == HistoryAfter(historyReply)
      ensures chart == ChartAfterLoad(None, currentCrypto, isDarkMode, chartReply)
      ensures totalPredictions == TotalAfter(old(totalPredictions), statsReply)
      ensures requests == old(requests) + [HistoryRequest] + ChartRequests(currentCrypto, 30) + [HistoryRequest]
    {
      ApplyDarkMode(chartReply);
      LoadHistory(historyReply);
      LoadChart(30, chartReply);
      UpdateStats(statsReply);
    }

    // -------------------------------------------------------------------------
    // Banners and panels

    method ShowError(message: string)
      modifies this`errorVisible, this`errorText
      ensures errorVisible && errorText == message
    {
      errorText := message;
      errorVisible := true;
    }

    /** `showLoading`: the overlay and the disabled predict button go together. */
    method ShowLoading(show: bool)
      modifies this`overlayVisible, this`predictEnabled
      ensures overlayVisible == show && predictEnabled == !show
    {
      overlayVisible := show;
      predictEnabled := !show;
    }

    method ShowResult(data: PredictionData)
      modifies this`result, this`resultVisible
      ensures resultVisible && result == Some(ResultFor(data))
    {
      result := Some(ResultFor(data));
      resultVisible := true;
    }

    // -------------------------------------------------------------------------
    // Forecast

    /**
     * `handlePredict` up to its `await`: the overlay goes up, the error and
     * result panels are hidden, the stored forecast is cleared and the
     * analyze button disabled, and the request is sent.
     */
    method BeginPredict(selection: string)
      requires Valid()
      modifies this`overlayVisible, this`predictEnabled, this`errorVisible, this`resultVisible,
               this`analyzeEnabled, this`analysis, this`currentPredictionData, this`requests
      ensures Valid()
      ensures overlayVisible && !predictEnabled && !errorVisible && !resultVisible
      ensures !analyzeEnabled && analysis == AwaitingPrediction && currentPredictionData == None
      ensures requests == old(requests) + [PredictRequest(selection)]
    {
      ShowLoading(true);
      errorVisible := false;
      resultVisible := false;
      analyzeEnabled := false;
      analysis := AwaitingPrediction;
      currentPredictionData := None;
      requests := requests + [PredictRequest(selection)];
    }

    /**
     * `handlePredict` after a successful `await`: the result is shown,
     * history and statistics are reloaded, and the forecast is stored with
     * the analyze button enabled; then the overlay goes down.
     */
    method PredictSucceeded(data: PredictionData, historyReply: HistoryFetch, statsReply: HistoryFetch)
      requires Valid()
      modifies this`result, this`resultVisible, this`history, this`totalPredictions, this`requests,
               this`currentPredictionData, this`analyzeEnabled, this`analysis,
               this`overlayVisible, this`predictEnabled
      ensures Valid()
      ensures predictEnabled && !overlayVisible
      ensures currentPredictionData == Some(data) && analyzeEnabled && analysis == ReadyToAnalyze
      ensures resultVisible && result == Some(ResultFor(data))
      ensures history == HistoryAfter(historyReply)
      ensures totalPredictions == TotalAfter(old(totalPredictions), statsReply)
      ensures requests == old(requests) + [HistoryRequest, HistoryRequest]
    {
      ShowResult(data);
      LoadHistory(historyReply);
      UpdateStats(statsReply);
      currentPredictionData := Some(data);
      analyzeEnabled := true;
      analysis := ReadyToAnalyze;
      ShowLoading(false);
    }

    /**
     * `handlePredict` after a failed `await` (an error reply or a thrown
     * exception): the error is shown, nothing is stored, and the overlay
     * goes down.
     */
    method PredictFailed(reply: Fetch<PredictionData>)
      requires Valid()
      requires !reply.Ok?
      modifies this`errorVisible, this`errorText, this`overlayVisible, this`predictEnabled
      ensures Valid()
      ensures predictEnabled && !overlayVisible
      ensures errorVisible && errorText == PredictFailureMessage(reply)
    {
      ShowError(PredictFailureMessage(reply));
      ShowLoading(false);
    }

    /** `handlePredict`: the guard on the selection, then both halves around the `await`. */
    method HandlePredict(selection: string, reply: Fetch<PredictionData>,
                         historyReply: HistoryFetch, statsReply: HistoryFetch)
      requires Valid()
      modifies this`result, this`resultVisible, this`history, this`totalPredictions, this`requests,
               this`currentPredictionData, this`analyzeEnabled, this`analysis,
               this`errorVisible, this`errorText, this`overlayVisible, this`predictEnabled
      ensures Valid()
      ensures selection == "" ==>
        && errorVisible && errorText == "Please select a cryptocurrency"
        && requests == old(requests)
        && currentPredictionData == old(currentPredictionData)
        && analyzeEnabled == old(analyzeEnabled)
        && predictEnabled == old(predictEnabled)
        && result == old(result) && resultVisible == old(resultVisible)
        && history == old(history) && totalPredictions == old(totalPredictions)
        && analysis == old(analysis)
      ensures selection != "" ==>
        && predictEnabled && !overlayVisible
        && (currentPredictionData.Some? <==> reply.Ok?)
        && (reply.Ok? ==> currentPredictionData == Some(reply.payload))
        && (analyzeEnabled <==> reply.Ok?)
        && (errorVisible <==> !reply.Ok?)
        && (!reply.Ok? ==> errorText == PredictFailureMessage(reply))
        && (resultVisible <==> reply.Ok?)
        && requests == old(requests) + [PredictRequest(selection)]
                                     + (if reply.Ok? then [HistoryRequest, HistoryRequest] else [])
      ensures selection != "" && reply.Ok? ==>
        && result == Some(ResultFor(reply.payload))
        && history == HistoryAfter(historyReply)
        && totalPredictions == TotalAfter(old(totalPredictions), statsReply)
        && analysis == ReadyToAnalyze
      ensures selection != "" && !reply.Ok? ==>
        && analysis == AwaitingPrediction
        && result == old(result) && history == old(history) && totalPredictions == old(totalPredictions)
    {
      if selection == "" {
        ShowError("Please select a cryptocurrency");
        return;
      }
      BeginPredict(selection);
      if reply.Ok? {
        PredictSucceeded(reply.payload, historyReply, statsReply);
      } else {
        PredictFailed(reply);
      }
    }

    // -------------------------------------------------------------------------
    // Analysis

    /** `handleAnalyze` up to its `await`; only reachable with a stored forecast. */
    method BeginAnalyze()
      requires Valid()
      requires currentPredictionData.Some?
      modifies this`analyzeEnabled, this`analysis, this`requests
      ensures Valid()
      ensures !analyzeEnabled && analysis == Analyzing
      ensures var d := currentPredictionData.value;
        requests == old(requests) + [AnalyzeRequest(d.crypto, d.currentPrice, d.predictedPrice)]
    {
      var d := currentPredictionData.value;
      analyzeEnabled := false;
      analysis := Analyzing;
      requests := requests + [AnalyzeRequest(d.crypto, d.currentPrice, d.predictedPrice)];
    }

    /** `handleAnalyze` after its `await`: the text or the error, then the button back on. */
    method FinishAnalyze(reply: Fetch<string>)
      requires Valid()
      requires currentPredictionData.Some?
      modifies this`analyzeEnabled, this`analysis
      ensures Valid()
      ensures analyzeEnabled
      ensures analysis == if reply.Ok? then Analysis(reply.payload) else AnalysisError(AnalysisFailureMessage(reply))
    {
      if reply.Ok? {
        analysis := Analysis(reply.payload);
      } else {
        analysis := AnalysisError(AnalysisFailureMessage(reply));
      }
      analyzeEnabled := true;
    }

    /**
     * `handleAnalyze`: without a stored forecast, a note and no request;
     * otherwise exactly one request built from the stored forecast, and the
     * button enabled again however it ends. The stored forecast is never
     * touched, not even on failure.
     */
    method HandleAnalyze(reply: Fetch<string>)
      requires Valid()
      modifies this`analyzeEnabled, this`analysis, this`requests
      ensures Valid()
      ensures old(currentPredictionData).None? ==>
        analysis == PredictionRequired && requests == old(requests) && analyzeEnabled == old(analyzeEnabled)
      ensures old(currentPredictionData).Some? ==>
        var d := old(currentPredictionData).value;
        && requests == old(requests) + [AnalyzeRequest(d.crypto, d.currentPrice, d.predictedPrice)]
        && analyzeEnabled
        && analysis == if reply.Ok? then Analysis(reply.payload) else AnalysisError(AnalysisFailureMessage(reply))
    {
      if currentPredictionData.None? {
        analysis := PredictionRequired;
        return;
      }
      BeginAnalyze();
      FinishAnalyze(reply);
    }

    // -------------------------------------------------------------------------
    // History and statistics

    /** `loadHistory` and `renderHistory` / `renderHistoryError`. */
    method LoadHistory(reply: HistoryFetch)
      modifies this`history, this`requests
      ensures history == HistoryAfter(reply)
      ensures requests == old(requests) + [HistoryRequest]
    {
      requests := requests + [HistoryRequest];
      match reply {
        case Ok(predictions) =>
          if predictions.None? || predictions.value == [] {
            history := EmptyState;
          } else {
            history := Table(Rows(predictions.value));
          }
        case _ =>
          history := ErrorState(HistoryLoadFailed);
      }
    }

    /** `updateStats`: failures are only logged. */
    method UpdateStats(reply: HistoryFetch)
      modifies this`totalPredictions, this`requests
      ensures totalPredictions == TotalAfter(old(totalPredictions), reply)
      ensures requests == old(requests) + [HistoryRequest]
    {
      requests := requests + [HistoryRequest];
      if reply.Ok? && reply.payload.Some? {
        totalPredictions := Some(|reply.payload.value|);
      }
    }

    // -------------------------------------------------------------------------
    // Chart

    /** `renderChart`: the old instance is destroyed before the new one is built. */
    method RenderChart(data: seq<ChartPoint>, crypto: string)
      requires Valid()
      modifies this`chart, this`liveCharts
      ensures Valid()
      ensures chart == Some(ChartFor(data, crypto, isDarkMode))
      ensures liveCharts == 1
    {
      if chart.Some? {
        liveCharts := liveCharts - 1;  // this.chart.destroy()
      }
      var labels := Labels(data);
      var prices := Prices(data);
      chart := Some(ChartView(labels, prices, crypto, ColorsFor(crypto), ThemeColorsFor(isDarkMode)));
      liveCharts := liveCharts + 1;
    }

    /**
     * `loadChart(days)`: nothing without a selected symbol; a failed load is
     * only logged, leaving the old chart (and no error) on screen.
     */
    method LoadChart(days: int, reply: Fetch<ChartPayload>)
      requires Valid()
      modifies this`chart, this`liveCharts, this`requests
      ensures Valid()
      ensures chart == ChartAfterLoad(old(chart), currentCrypto, isDarkMode, reply)
      ensures requests == old(requests) + ChartRequests(currentCrypto, days)
    {
      if currentCrypto == "" {
        return;
      }
      requests := requests + [ChartRequest(currentCrypto, days)];
      if reply.Ok? {
        RenderChart(reply.payload.data, reply.payload.crypto);
      }
    }

    /**
     * `handleChartPeriod`: restyles the buttons so that only the clicked one
     * looks selected and loads that period, but never moves the `active`
     * class that later reloads read.
     */
    method HandleChartPeriod(period: int, reply: Fetch<ChartPayload>)
      requires Valid()
      modifies this`highlightedPeriod, this`chart, this`liveCharts, this`requests
      ensures Valid()
      ensures highlightedPeriod == Some(period)
      ensures chart == ChartAfterLoad(old(chart), currentCrypto, isDarkMode, reply)
      ensures requests == old(requests) + ChartRequests(currentCrypto, period)
    {
      highlightedPeriod := Some(period);
      LoadChart(period, reply);
    }

    /** The `change` listener of the symbol selector: reload at the `active` period, or 30 days. */
    method HandleCryptoChange(value: string, reply: Fetch<ChartPayload>)
      requires Valid()
      modifies this`currentCrypto, this`chart, this`liveCharts, this`requests
      ensures Valid()
      ensures currentCrypto == value
      ensures chart == ChartAfterLoad(old(chart), value, isDarkMode, reply)
      ensures requests == old(requests) + ChartRequests(value, ReloadPeriod(activePeriod))
    {
      currentCrypto := value;
      if currentCrypto != "" {
        LoadChart(ReloadPeriod(activePeriod), reply);
      }
    }

    // -------------------------------------------------------------------------
    // Theme

    /**
     * `applyDarkMode`: the page's `dark` class and the toggle's icon are set
     * from `isDarkMode` (they are not modelled as fields of their own); the
     * chart is reloaded only if one exists.
     */
    method ApplyDarkMode(reply: Fetch<ChartPayload>)
      requires Valid()
      modifies this`chart, this`liveCharts, this`requests
      ensures Valid()
      ensures old(chart).None? ==> chart == None && requests == old(requests)
      ensures old(chart).Some? ==>
        && chart == ChartAfterLoad(old(chart), currentCrypto, isDarkMode, reply)
        && requests == old(requests) + ChartRequests(currentCrypto, ReloadPeriod(activePeriod))
    {
      if chart.Some? {
        LoadChart(ReloadPeriod(activePeriod), reply);
      }
    }

    /** `toggleDarkMode`: flip, persist, apply. */
    method ToggleDarkMode(reply: Fetch<ChartPayload>)
      requires Valid()
      modifies this`isDarkMode, this`storedDarkMode, this`chart, this`liveCharts, this`requests
      ensures Valid()
      ensures Theme(isDarkMode, storedDarkMode) == Toggle(old(Theme(isDarkMode, storedDarkMode)))
      ensures old(chart).None? ==> chart == None && requests == old(requests)
      ensures old(chart).Some? ==>
        && chart == ChartAfterLoad(old(chart), currentCrypto, isDarkMode, reply)
        && requests == old(requests) + ChartRequests(currentCrypto, ReloadPeriod(activePeriod))
    {
      isDarkMode := !isDarkMode;
      storedDarkMode := Some(BoolText(isDarkMode));
      ApplyDarkMode(reply);
    }
  }
}
