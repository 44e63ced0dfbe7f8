/**
 * Runs of `CryptoPredictorApp` from page load, stated as methods over a
 * freshly built controller: what a user sees after a sequence of clicks,
 * whatever the server replies.
 */
module AppScenarios {
  import opened Common
  import opened AppView
  import opened App

  /**
   * After a period button is clicked, a theme toggle reloads the chart for
   * 30 days, not for the clicked period: `handleChartPeriod` never sets the
   * `active` class that the reload reads (on a page that marks no button
   * active). The toggle sends that one request and nothing else.
   */
  method ThemeToggleForgetsPeriod(
    stored: Option<string>, historyReply: HistoryFetch, chartReply: Fetch<ChartPayload>,
    statsReply: HistoryFetch, period: int, periodReply: Fetch<ChartPayload>, toggleReply: Fetch<ChartPayload>)
    returns (sent: seq<Request>)
    requires chartReply.Ok?
    ensures sent == [ChartRequest("BTC", 30)]
  {
    var app := new CryptoPredictorApp(stored, None, historyReply, chartReply, statsReply);
    app.HandleChartPeriod(period, periodReply);
    var n := |app.requests|;
    app.ToggleDarkMode(toggleReply);
    sent := app.requests[n..];
  }

  /**
   * When the reload after a theme toggle fails, the old chart stays, still
   * drawn in the previous theme's colours, and no error is shown.
   */
  method FailedReloadKeepsOldTheme(
    stored: Option<string>, historyReply: HistoryFetch, chartReply: Fetch<ChartPayload>,
    statsReply: HistoryFetch, toggleReply: Fetch<ChartPayload>)
    returns (pageDark: bool, chartTheme: ThemeColors, errorShown: bool)
    requires chartReply.Ok? && !toggleReply.Ok?
    ensures chartTheme == ThemeColorsFor(!pageDark)
    ensures chartTheme != ThemeColorsFor(pageDark)
    ensures !errorShown
  {
    var app := new CryptoPredictorApp(stored, None, historyReply, chartReply, statsReply);
    app.ToggleDarkMode(toggleReply);
    pageDark := app.isDarkMode;
    chartTheme := app.chart.value.theme;
    errorShown := app.errorVisible;
    ThemeColorsDiffer(pageDark);
  }

  /**
   * Two theme toggles give back the starting mode, and leave the stored
   * value saying so: read at the next page load, it yields the same mode.
   */
  method ToggleTwiceRestoresTheme(
    stored: Option<string>, historyReply: HistoryFetch, chartReply: Fetch<ChartPayload>,
    statsReply: HistoryFetch, reply1: Fetch<ChartPayload>, reply2: Fetch<ChartPayload>)
    returns (before: bool, after: bool, storedAfter: Option<string>)
    ensures after == before
    ensures ReadDarkMode(storedAfter) == before
    ensures before == ReadDarkMode(stored)
  {
    var app := new CryptoPredictorApp(stored, None, historyReply, chartReply, statsReply);
    before := app.isDarkMode;
    app.ToggleDarkMode(reply1);
    app.ToggleDarkMode(reply2);
    after := app.isDarkMode;
    storedAfter := app.storedDarkMode;
    ToggleTwice(Theme(before, stored));
  }

  /** A click that (re)loads the chart, with the reply it gets. */
  datatype ChartAction =
    | PeriodClick(period: int, reply: Fetch<ChartPayload>)
    | ThemeToggle(reply: Fetch<ChartPayload>)
    | SymbolChange(value: string, reply: Fetch<ChartPayload>)

  /**
   * Whatever sequence of period clicks, theme toggles and symbol changes
   * follows a page load that drew a chart, and however each reload ends,
   * exactly one chart instance is live at the end.
   */
  method RepeatedLoadsKeepOneChart(
    historyReply: HistoryFetch, chartReply: Fetch<ChartPayload>, statsReply: HistoryFetch,
    actions: seq<ChartAction>)
    returns (live: nat)
    requires chartReply.Ok?
    ensures live == 1
  {
    var app := new CryptoPredictorApp(None, None, historyReply, chartReply, statsReply);
    var i := 0;
    while i < |actions|
      invariant 0 <= i <= |actions|
      invariant app.Valid() && app.chart.Some?
      modifies app
    {
      match actions[i] {
        case PeriodClick(period, reply) => app.HandleChartPeriod(period, reply);
        case ThemeToggle(reply) => app.ToggleDarkMode(reply);
        case SymbolChange(value, reply) => app.HandleCryptoChange(value, reply);
      }
      i := i + 1;
    }
    live := app.liveCharts;
  }

  /**
   * Clicking "Get AI Insight" before any forecast sends nothing; after a
   * failed forecast it still sends nothing.
   */
  method NoAnalysisWithoutForecast(
    historyReply: HistoryFetch, chartReply: Fetch<ChartPayload>, statsReply: HistoryFetch,
    selection: string, predictReply: Fetch<PredictionData>, analyzeReply: Fetch<string>)
    returns (issued: seq<Request>)
    requires !predictReply.Ok?
    ensures forall i :: 0 <= i < |issued| ==> !issued[i].AnalyzeRequest?
  {
    var app := new CryptoPredictorApp(None, None, historyReply, chartReply, statsReply);
    var n := |app.requests|;
    app.HandleAnalyze(analyzeReply);
    app.HandlePredict(selection, predictReply, historyReply, statsReply);
    app.HandleAnalyze(analyzeReply);
    issued := app.requests[n..];
  }

  /**
   * A failed analysis after a successful forecast keeps the forecast, so the
   * next click asks about the same prices again.
   */
  method FailedAnalysisKeepsForecast(
    historyReply: HistoryFetch, chartReply: Fetch<ChartPayload>, statsReply: HistoryFetch,
    selection: string, data: PredictionData, analyzeReply: Fetch<string>, retryReply: Fetch<string>)
    returns (first: Request, second: Request)
    requires selection != "" && !analyzeReply.Ok?
    ensures first == second == AnalyzeRequest(data.crypto, data.currentPrice, data.predictedPrice)
  {
    var app := new CryptoPredictorApp(None, None, historyReply, chartReply, statsReply);
    app.HandlePredict(selection, Ok(data), historyReply, statsReply);
    app.HandleAnalyze(analyzeReply);
    first := app.requests[|app.requests| - 1];
    app.HandleAnalyze(retryReply);
    second := app.requests[|app.requests| - 1];
  }
}
