/**
 * The pure parts of `CryptoPredictorApp` (static/js/app.js): the sign and
 * colour of the change indicator, the history table rows, the chart's data,
 * colours and theme, the stored theme flag, and the messages shown when a
 * request fails. The markup itself (class lists, SVG, icons) is reduced to
 * the choice it encodes.
 */
module AppView {
  import opened Common
  import Routes

  /**
   * How an `await fetch(...)` followed by `await response.json()` ended: a
   * 2xx reply with its body, a non-2xx reply whose body may carry an `error`
   * string, or an exception (network failure, body that is not JSON).
   */
  datatype Fetch<T> = Ok(payload: T) | NotOk(error: Option<string>) | Thrown(message: string)

  /** JavaScript's `s || fallback` on strings: the empty string is falsy. */
  function OrElse(s: string, fallback: string): string {
    if s != "" then s else fallback
  }

  // ---------------------------------------------------------------------------
  // Forecast result

  /** The body of a successful `/api/predict` reply, as the client keeps it. */
  datatype PredictionData = PredictionData(
    crypto: string,
    currentPrice: real,
    predictedPrice: real,
    changePercent: real,
    predictionDate: string)

  /** The change figure's sign prefix and whether it gets the green (positive) classes. */
  datatype ChangeIndicator = ChangeIndicator(prefix: string, positive: bool)

  /** `showResult`'s choice: '+' and green for a non-negative change, no prefix and red otherwise. */
  function Indicator(changePercent: real): (c: ChangeIndicator)
    ensures c.positive <==> changePercent >= 0.0
    ensures c.prefix == "+" <==> c.positive
    ensures c.prefix == "" <==> !c.positive
  {
    if changePercent >= 0.0 then ChangeIndicator("+", true) else ChangeIndicator("", false)
  }

  /** What the result panel shows. */
  datatype ResultView = ResultView(
    currentPrice: real,
    predictedPrice: real,
    changePercent: real,
    indicator: ChangeIndicator,
    predictionDate: string)

  function ResultFor(p: PredictionData): ResultView {
    ResultView(p.currentPrice, p.predictedPrice, p.changePercent, Indicator(p.changePercent), p.predictionDate)
  }

  /** A change of exactly zero is shown as a gain. */
  lemma ZeroChangeIsPositive(p: PredictionData)
    requires p.changePercent == 0.0
    ensures ResultFor(p).indicator == ChangeIndicator("+", true)
  {
  }

  /** The message `handlePredict` shows for a failed request. */
  function PredictFailureMessage(outcome: Fetch<PredictionData>): (m: string)
    requires !outcome.Ok?
    ensures m != ""
  {
    match outcome
    case NotOk(error) => OrElse(OrElse(error.GetOr(""), "Prediction failed"), "Failed to generate prediction")
    case Thrown(message) => OrElse(message, "Failed to generate prediction")
  }

  /**
   * On a non-2xx reply the server's `error` text is shown verbatim, and
   * 'Prediction failed' when it has none.
   */
  lemma PredictFailureShowsServerError(error: Option<string>)
    ensures error.Some? && error.value != "" ==> PredictFailureMessage(NotOk(error)) == error.value
    ensures error.None? || error.value == "" ==> PredictFailureMessage(NotOk(error)) == "Prediction failed"
  {
  }

  /** The message `handleAnalyze` shows for a failed request. */
  function AnalysisFailureMessage(outcome: Fetch<string>): string
    requires !outcome.Ok?
  {
    match outcome
    case NotOk(error) => OrElse(error.GetOr(""), "Analysis failed")
    case Thrown(message) => message
  }

  // ---------------------------------------------------------------------------
  // History table

  /** One record of the `predictions` list of `/api/history`. */
  datatype HistoryRecord = HistoryRecord(
    crypto: string,
    date: string,
    predictedPrice: real,
    actualPrice: Option<real>)

  datatype Status = Completed | Pending

  /** A table row; `actualPrice` is `None` where the row shows '-'. */
  datatype HistoryRow = HistoryRow(
    crypto: string,
    date: string,
    predictedPrice: real,
    actualPrice: Option<real>,
    status: Status)

  /** JavaScript truthiness of `actual_price`: null and 0 are both falsy. */
  predicate HasActual(actual: Option<real>) {
    actual.Some? && actual.value != 0.0
  }

  function RowFor(rec: HistoryRecord): (row: HistoryRow)
    ensures row.crypto == rec.crypto && row.date == rec.date && row.predictedPrice == rec.predictedPrice
    ensures row.status == Completed <==> HasActual(rec.actualPrice)
    ensures row.actualPrice == if HasActual(rec.actualPrice) then rec.actualPrice else None
  {
    if HasActual(rec.actualPrice) then
      HistoryRow(rec.crypto, rec.date, rec.predictedPrice, rec.actualPrice, Completed)
    else
      HistoryRow(rec.crypto, rec.date, rec.predictedPrice, None, Pending)
  }

  /** `predictions.map(...)`: one row per record, in the order received. */
  function Rows(records: seq<HistoryRecord>): (rows: seq<HistoryRow>)
    ensures |rows| == |records|
    ensures forall i :: 0 <= i < |records| ==> rows[i] == RowFor(records[i])
  {
    if records == [] then [] else [RowFor(records[0])] + Rows(records[1..])
  }

  /** The history table body: exactly one of these is shown at a time. */
  datatype HistoryView = Unrendered | EmptyState | Table(rows: seq<HistoryRow>) | ErrorState(message: string)

  /** `renderHistory`: the empty state for a null or empty list, otherwise the rows. */
  function RenderHistory(predictions: Option<seq<HistoryRecord>>): (v: HistoryView)
    ensures v.EmptyState? || v.Table?
  {
    if predictions.None? || predictions.value == [] then EmptyState else Table(Rows(predictions.value))
  }

  const HistoryLoadFailed := "Failed to load prediction history"

  /** The table after `loadHistory`; a failed fetch shows a fixed message, not the server's. */
  function HistoryAfter(outcome: Fetch<Option<seq<HistoryRecord>>>): HistoryView {
    match outcome
    case Ok(predictions) => RenderHistory(predictions)
    case _ => ErrorState(HistoryLoadFailed)
  }

  /**
   * The three views of a loaded history are exclusive: empty exactly for an
   * empty or missing list, the error exactly for a failed fetch, and
   * otherwise one row per record in server order.
   */
  lemma HistoryViews(outcome: Fetch<Option<seq<HistoryRecord>>>)
    ensures HistoryAfter(outcome).EmptyState? <==>
      outcome.Ok? && (outcome.payload.None? || outcome.payload.value == [])
    ensures HistoryAfter(outcome).ErrorState? <==> !outcome.Ok?
    ensures HistoryAfter(outcome).ErrorState? ==> HistoryAfter(outcome).message == HistoryLoadFailed
    ensures HistoryAfter(outcome).Table? ==>
      var records := outcome.payload.value;
      && |HistoryAfter(outcome).rows| == |records| > 0
      && forall i :: 0 <= i < |records| ==> HistoryAfter(outcome).rows[i] == RowFor(records[i])
  {
  }

  /** `updateStats`: the count changes only on a 2xx reply that carries a list (empty included). */
  function TotalAfter(total: Option<nat>, outcome: Fetch<Option<seq<HistoryRecord>>>): Option<nat>
  {
    match outcome
    case Ok(Some(predictions)) => Some(|predictions|)
    case _ => total
  }

  /**
   * The counter and the table agree when both come from the same reply: a
   * list gives a count equal to the number of rows drawn (zero for the
   * empty state); a failed fetch keeps the old count and shows the error.
   */
  lemma CounterMatchesTable(total: Option<nat>, outcome: Fetch<Option<seq<HistoryRecord>>>)
    ensures outcome.Ok? && outcome.payload.Some? ==>
      TotalAfter(total, outcome) == Some(if HistoryAfter(outcome).Table? then |HistoryAfter(outcome).rows| else 0)
    ensures outcome.Ok? && outcome.payload.None? ==>
      TotalAfter(total, outcome) == total && HistoryAfter(outcome).EmptyState?
    ensures !outcome.Ok? ==> TotalAfter(total, outcome) == total && HistoryAfter(outcome).ErrorState?
  {
  }

  // ---------------------------------------------------------------------------
  // Chart

  datatype ChartPoint = ChartPoint(date: string, price: real)

  /** The body of a successful `/api/chart-data` reply. */
  datatype ChartPayload = ChartPayload(crypto: string, data: seq<ChartPoint>)

  /**
   * What `cryptoColors[crypto]` yields: a palette entry, or a member every
   * object inherits, which is truthy but has no `border` or `background`.
   */
  datatype Colors = Colors(border: string, background: string) | Inherited

  /** `cryptoColors`: eight of the ten symbols have a colour; MATIC and UNI do not. */
  const Palette: map<string, Colors> := map[
    "BTC" := Colors("#f7931a", "rgba(247, 147, 26, 0.1)"),
    "ETH" := Colors("#627eea", "rgba(98, 126, 234, 0.1)"),
    "ADA" := Colors("#0033ad", "rgba(0, 51, 173, 0.1)"),
    "SOL" := Colors("#9945ff", "rgba(153, 69, 255, 0.1)"),
    "DOT" := Colors("#e6007a", "rgba(230, 0, 122, 0.1)"),
    "AVAX" := Colors("#e84142", "rgba(232, 65, 66, 0.1)"),
    "LINK" := Colors("#375bd2", "rgba(55, 91, 210, 0.1)"),
    "LTC" := Colors("#bfbbbb", "rgba(191, 187, 187, 0.1)")
  ]

  /** The names of the properties of `Object.prototype`, which property lookup also finds. */
  const ObjectPrototypeMembers: set<string> := {
    "constructor", "hasOwnProperty", "isPrototypeOf", "propertyIsEnumerable",
    "toLocaleString", "toString", "valueOf", "__proto__",
    "__defineGetter__", "__defineSetter__", "__lookupGetter__", "__lookupSetter__"
  }

  /**
   * `cryptoColors[crypto] || cryptoColors.BTC`: the fallback fires only when
   * the lookup finds nothing, so an inherited member is used as it is.
   */
  function ColorsFor(crypto: string): Colors
  {
    if crypto in Palette then Palette[crypto]
    else if crypto in ObjectPrototypeMembers then Inherited
    else Palette["BTC"]
  }

  /**
   * Of the ten symbols the server accepts, exactly MATIC and UNI have no
   * colour of their own, and every such symbol is drawn in Bitcoin's colours.
   */
  lemma UncolouredSymbolsLookLikeBitcoin()
    ensures "MATIC" in Routes.ValidCryptos && "UNI" in Routes.ValidCryptos
    ensures forall s :: s in Routes.ValidCryptos ==> (s !in Palette <==> s == "MATIC" || s == "UNI")
    ensures forall s :: s in Routes.ValidCryptos && s !in Palette ==> ColorsFor(s) == ColorsFor("BTC")
  {
    forall s | s in Routes.ValidCryptos
      ensures s !in Palette <==> s == "MATIC" || s == "UNI"
    {
      var i :| 0 <= i < |Routes.ValidCryptos| && Routes.ValidCryptos[i] == s;
      assert Routes.ValidCryptos[4] == "MATIC" && Routes.ValidCryptos[8] == "UNI";
    }
    assert "BTC" in Palette;
  }

  /**
   * No accepted symbol names an inherited member: each starts with a
   * capital, and each inherited name with a lower-case letter or '_'.
   */
  lemma AcceptedSymbolsAreNotInherited()
    ensures forall s :: s in Routes.ValidCryptos ==> s !in ObjectPrototypeMembers
  {
    forall s | s in Routes.ValidCryptos
      ensures s !in ObjectPrototypeMembers
    {
      var i :| 0 <= i < |Routes.ValidCryptos| && Routes.ValidCryptos[i] == s;
      assert 'A' <= s[0] <= 'Z' && s[0] !in "chiptv_";
    }
  }

  /** The theme-dependent colours of the chart. */
  datatype ThemeColors = ThemeColors(
    grid: string,
    text: string,
    legend: string,
    pointBorder: string,
    tooltipBackground: string)

  function ThemeColorsFor(dark: bool): ThemeColors {
    if dark then ThemeColors("rgba(255, 255, 255, 0.1)", "#9ca3af", "#e5e7eb", "#111827", "#1f2937")
    else ThemeColors("rgba(0, 0, 0, 0.05)", "#6b7280", "#374151", "#ffffff", "#ffffff")
  }

  /** The two themes never share a chart colour scheme. */
  lemma ThemeColorsDiffer(dark: bool)
    ensures ThemeColorsFor(dark) != ThemeColorsFor(!dark)
  {
    assert ThemeColorsFor(true).text != ThemeColorsFor(false).text;
  }

  /** `data.map(item => item.date)`. */
  function Labels(points: seq<ChartPoint>): (labels: seq<string>)
    ensures |labels| == |points|
    ensures forall i :: 0 <= i < |points| ==> labels[i] == points[i].date
  {
    if points == [] then [] else [points[0].date] + Labels(points[1..])
  }

  /** `data.map(item => item.price)`. */
  function Prices(points: seq<ChartPoint>): (prices: seq<real>)
    ensures |prices| == |points|
    ensures forall i :: 0 <= i < |points| ==> prices[i] == points[i].price
  {
    if points == [] then [] else [points[0].price] + Prices(points[1..])
  }

  /** What a live chart instance was built from. */
  datatype ChartView = ChartView(
    labels: seq<string>,
    prices: seq<real>,
    crypto: string,
    colors: Colors,
    theme: ThemeColors)

  function ChartFor(points: seq<ChartPoint>, crypto: string, dark: bool): ChartView {
    ChartView(Labels(points), Prices(points), crypto, ColorsFor(crypto), ThemeColorsFor(dark))
  }

  /**
   * The chart plots every point in order, labels and prices side by side;
   * its colours are the symbol's, Bitcoin's when the lookup finds nothing,
   * and none at all for a name every object inherits; its theme is the one
   * in force when it was built.
   */
  lemma ChartPlotsData(points: seq<ChartPoint>, crypto: string, dark: bool)
    ensures var c := ChartFor(points, crypto, dark);
      && |c.labels| == |c.prices| == |points|
      && (forall i :: 0 <= i < |points| ==> c.labels[i] == points[i].date && c.prices[i] == points[i].price)
      && (crypto in Palette ==> c.colors == Palette[crypto])
      && (crypto !in Palette && crypto !in ObjectPrototypeMembers ==> c.colors == Palette["BTC"])
      && (crypto in ObjectPrototypeMembers ==> c.colors.Inherited?)
      && c.theme == ThemeColorsFor(dark)
  {
  }

  /** The period a reload uses: the `.active` button's, else 30 days. */
  function ReloadPeriod(active: Option<int>): (days: int)
    ensures active.None? ==> days == 30
  {
    active.GetOr(30)
  }

  // ---------------------------------------------------------------------------
  // Theme

  /** `localStorage.setItem('darkMode', b)` stores the string form of the boolean. */
  function BoolText(b: bool): string {
    if b then "true" else "false"
  }

  /** The constructor's reading: `localStorage.getItem('darkMode') === 'true'`. */
  function ReadDarkMode(stored: Option<string>): bool
  {
    stored == Some("true")
  }

  /**
   * A stored value reads back as the flag it was written from, and a first
   * visit, with nothing stored, starts in light mode.
   */
  lemma StoredThemeReadsBack(b: bool)
    ensures ReadDarkMode(Some(BoolText(b))) == b
    ensures !ReadDarkMode(None)
  {
    assert BoolText(false) != "true";
  }

  /** The in-memory flag and the persisted value together. */
  datatype Theme = Theme(isDark: bool, stored: Option<string>)

  /** `toggleDarkMode`: flip the flag and write it back at once. */
  function Toggle(t: Theme): (u: Theme)
    ensures u.isDark == !t.isDark
    ensures ReadDarkMode(u.stored) == u.isDark
  {
    Theme(!t.isDark, Some(BoolText(!t.isDark)))
  }

  /**
   * Toggling twice restores the flag, and the persisted value whenever it
   * already agreed with the flag (as it does after any toggle).
   */
  lemma ToggleTwice(t: Theme)
    ensures Toggle(Toggle(t)).isDark == t.isDark
    ensures Toggle(Toggle(t)).stored == Some(BoolText(t.isDark))
    ensures t.stored == Some(BoolText(t.isDark)) ==> Toggle(Toggle(t)) == t
  {
  }
}
