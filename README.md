# Crypto price predictor: controller, request handlers and feature builder

This project models three sequential pieces of the cryptocurrency price
predictor and proves properties about them:

- **The browser controller `CryptoPredictorApp`** (static/js/app.js). It is
  a Dafny class (`App.CryptoPredictorApp`, in `app.dfy`) whose fields encode
  the page state that the JavaScript class changes:
  - the theme flag and its stored copy;
  - the stored forecast;
  - the predict and analyze buttons and the loading overlay;
  - the error banner and the result panel;
  - the analysis panel, the history table and the prediction counter;
  - the live chart and the count of live chart instances;
  - a log of the requests sent.

  Each `await fetch(...)` is a parameter of type `Fetch`:
  - `Ok(payload)` for a 2xx reply;
  - `NotOk(error)` for another reply, with its optional `error` string;
  - `Thrown(message)` for an exception.

  `handlePredict` and `handleAnalyze` are split at their `await`. The pure
  choices the class makes live in `app_view.dfy` (`AppView`): the sign of the
  change figure, the history rows, the chart colours and theme, and the
  failure messages. `app_scenarios.dfy` (`AppScenarios`) runs the controller
  from page load through several clicks and states what the user ends up
  seeing.
- **The Flask handlers `predict`, `history` and `chart_data`** (routes.py),
  in `routes.dfy` (`Routes`). The validation chains are functions. The
  predictions table is the `rows` field of the class `PredictionStore`, and
  a successful `predict` appends one row to it. The trained model, the
  historical-price download and the clock are parameters.
- **`prepare_features` and the guards of `predict_price`** (ml_model.py), in
  `ml_model.dfy` (`MlModel`). Prices are an opaque type parameter. The
  regressor and the 30-day download are parameters.

`common.dfy` holds the `Option` type used throughout.

Facts about the code that shape the model:
- No request carries a generation token, and no stale reply is discarded. A
  late reply simply overwrites what an earlier one drew.
- A chart load that fails is only logged. The old chart stays on screen, and
  no error glyph is drawn.
- A theme change reloads the chart data from the server. It does not rebuild
  the chart from a cached series.
- The period used for reloads is the one the page marks `active`, and no
  code ever moves that mark.
- There is no portfolio: `loadPortfolio` is an empty placeholder.
- routes.py defines no `/api/analyze` route. Unless some other module does, an analysis request reaches the 404 handler (routes.py:109-111). That handler returns the HTML page, so `response.json()` throws, and the reply is the `Thrown` case.

## Model

| member | source | states |
|---|---|---|
| App.ChartRequests | static/js/app.js:301-305 | a chart load sends a request exactly when a symbol is selected |
| App.CryptoPredictorApp.constructor | static/js/app.js:10-33 | page load reads the stored theme and starts on BTC with no forecast and nothing shown. It sends history, a 30-day BTC chart, then statistics, in that order, and leaves at most one live chart |
| App.CryptoPredictorApp.Init | static/js/app.js:23-33 | applies the theme (with no chart, nothing is reloaded), then loads the history, the 30-day chart and the counter |
| App.CryptoPredictorApp.ShowError | static/js/app.js:193-198 | the banner becomes visible with exactly the given text |
| App.CryptoPredictorApp.ShowLoading | static/js/app.js:208-232 | the overlay is visible exactly when the predict button is disabled |
| App.CryptoPredictorApp.ShowResult | static/js/app.js:173-191 | the result panel becomes visible and shows the forecast with its sign choice |
| App.CryptoPredictorApp.BeginPredict | static/js/app.js:76-92 | before the request: overlay up, predict button disabled, error and result hidden, stored forecast cleared, analyze disabled, and one predict request sent |
| App.CryptoPredictorApp.PredictSucceeded | static/js/app.js:100-116 | on an ok reply: the result is shown, history and counter reloaded, the forecast stored, analyze enabled, and the overlay down |
| App.CryptoPredictorApp.PredictFailed | static/js/app.js:96-116 | on a failed reply: the failure message is shown, nothing is stored, and the overlay is down with the predict button enabled |
| App.CryptoPredictorApp.HandlePredict | static/js/app.js:67-117 | an empty selection shows "Please select a cryptocurrency" and sends nothing. It leaves the stored forecast, the buttons, the result panel, the history, the counter and the analysis panel unchanged. Otherwise the forecast is stored, analyze enabled and the result shown iff the reply is ok, and the error shows iff it is not. On an ok reply the panel shows that forecast, history and counter are reloaded from their replies, and the analysis panel invites a click. On a failed reply the analysis panel keeps its waiting note and the result, history and counter stay as they were. The predict button is enabled and the overlay hidden on every path |
| App.CryptoPredictorApp.BeginAnalyze | static/js/app.js:130-150 | disables the analyze button and sends one analysis request built from the stored forecast |
| App.CryptoPredictorApp.FinishAnalyze | static/js/app.js:152-169 | shows the analysis or the failure message, and re-enables the button either way |
| App.CryptoPredictorApp.HandleAnalyze | static/js/app.js:120-170 | with no stored forecast it shows a note and sends nothing. Otherwise it sends exactly one request for the stored forecast and re-enables the button whatever the reply. The stored forecast is never changed |
| App.CryptoPredictorApp.LoadHistory | static/js/app.js:234-244 | sends one history request; the table becomes the view of the reply |
| App.CryptoPredictorApp.UpdateStats | static/js/app.js:464-475 | sends one history request; the counter changes only on an ok reply with a list |
| App.CryptoPredictorApp.RenderChart | static/js/app.js:314-342 | the old instance is destroyed before the new one is built. Exactly one instance is live afterwards, drawn from the data in the current theme |
| App.CryptoPredictorApp.LoadChart | static/js/app.js:301-312 | sends nothing without a symbol. A failed load leaves the chart as it was, with no error shown |
| App.CryptoPredictorApp.HandleChartPeriod | static/js/app.js:422-436 | highlights the clicked period and loads that period. The `active` mark is untouched |
| App.CryptoPredictorApp.HandleCryptoChange | static/js/app.js:48-54 | switches the symbol, then reloads at the `active` period, or 30 days when no button is marked, and only for a non-empty symbol |
| App.CryptoPredictorApp.ApplyDarkMode | static/js/app.js:444-462 | reloads the chart only if one exists |
| App.CryptoPredictorApp.ToggleDarkMode | static/js/app.js:438-442 | the theme flag is negated and the stored value then reads back as the new flag; the chart is reloaded only if one exists |
| AppScenarios.ThemeToggleForgetsPeriod | static/js/app.js:422-462 | after a period click, a theme toggle sends exactly one request, for 30 days of BTC, not for the clicked period |
| AppScenarios.FailedReloadKeepsOldTheme | static/js/app.js:301-312 | when the reload after a toggle fails, the chart keeps the previous theme's colours and no error is shown |
| AppScenarios.ToggleTwiceRestoresTheme | static/js/app.js:438-442 | two toggles restore the theme, and the stored value reads back as the starting theme |
| AppScenarios.RepeatedLoadsKeepOneChart | static/js/app.js:314-319 | after a page load that drew a chart, any sequence of period clicks, theme toggles and symbol changes, each with any reply, leaves exactly one live chart |
| AppScenarios.NoAnalysisWithoutForecast | static/js/app.js:120-126 | with no stored forecast, or after a failed forecast, clicking analyze sends no analysis request |
| AppScenarios.FailedAnalysisKeepsForecast | static/js/app.js:155-169 | after a failed analysis, the retry asks about the same forecast |
| AppView.Indicator | static/js/app.js:178-185 | the '+' prefix and the green class go together, exactly when the change is >= 0 |
| AppView.ZeroChangeIsPositive | static/js/app.js:178-180 | a change of exactly zero is shown as a gain |
| AppView.PredictFailureMessage | static/js/app.js:96-113 | a failed forecast always shows a non-empty message |
| AppView.PredictFailureShowsServerError | static/js/app.js:96-98 | a non-ok reply shows the server's `error` text verbatim, or 'Prediction failed' when it has none |
| AppView.RowFor | static/js/app.js:268-283 | a row copies symbol, date and forecast. Its status is 'Completed' iff the actual price is present and non-zero, and the actual price is shown only then |
| AppView.Rows | static/js/app.js:268-284 | one row per record, in server order |
| AppView.RenderHistory | static/js/app.js:246-284 | rendering a list never gives the error state |
| AppView.HistoryViews | static/js/app.js:234-299 | the empty state appears iff the list is null or empty, the error state iff the fetch failed (with the fixed message), and otherwise the table has one row per record |
| AppView.UncolouredSymbolsLookLikeBitcoin | static/js/app.js:330-340 | of the ten symbols the server accepts, exactly MATIC and UNI have no colour entry, and every such symbol is drawn in Bitcoin's colours |
| AppView.CounterMatchesTable | static/js/app.js:464-475 | from the same history reply, the counter equals the number of table rows (0 for the empty state); a reply without a list or a failed fetch keeps the old count |
| AppView.ThemeColorsDiffer | static/js/app.js:325-328 | the dark and light chart colour schemes differ |
| AppView.Labels | static/js/app.js:321 | the labels are the points' dates, same length, same order |
| AppView.Prices | static/js/app.js:322 | the plotted values are the points' prices, same length, same order |
| AppView.AcceptedSymbolsAreNotInherited | static/js/app.js:330-340 | no symbol the server accepts is the name of a member every object inherits, so the lookup never yields an inherited member for a served chart |
| AppView.ChartPlotsData | static/js/app.js:321-342 | a chart has as many labels as prices as points, index by index. Its colours are the symbol's palette entry. A name the lookup does not find gets BTC's colours. An inherited name such as `constructor` or `toString` is truthy, so it gets no palette colours and no fallback. The theme is the one in force |
| AppView.ReloadPeriod | static/js/app.js:52 | with no button marked active, a reload uses 30 days |
| AppView.Toggle | static/js/app.js:438-442 | a toggle negates the flag and stores a value that reads back as the new flag |
| AppView.StoredThemeReadsBack | static/js/app.js:14 | a stored value reads back as the flag it was written from, and nothing stored means light mode |
| AppView.ToggleTwice | static/js/app.js:438-442 | toggling twice restores the flag. It restores the stored value too, once that value is in canonical form |
| MlModel.PrepareFeatures | ml_model.py:31-45 | returns None iff the data is missing or has fewer than lookback+1 prices. Otherwise window k is prices[k..k+lookback) and target k is prices[k+lookback], with both lists of length len-lookback |
| MlModel.WindowLength | ml_model.py:40-42 | every window holds exactly `lookback` prices |
| MlModel.WindowsOverlap | ml_model.py:40-43 | window k+1 is window k minus its first price, followed by target k |
| MlModel.SlidingWindowsUnique | ml_model.py:39-45 | the training set of a price series is unique |
| MlModel.Tail | ml_model.py:126 | `tail(n)` is the last min(n, len) elements, in order |
| MlModel.PredictPrice | ml_model.py:112-147 | with no loaded model it returns None without downloading. It returns a forecast iff a model exists, the download succeeded and it has at least 5 prices. The forecast holds the last 5 prices, the last price as current, and the regressor's output on those 5 |
| Routes.Upper | routes.py:17 | upper-casing keeps the length and maps each lower-case ASCII letter, the dotless i and the long s to its capital |
| Routes.NonAsciiSpellingsAccepted | routes.py:17-20 | "ſol", "lınk" and "unı" upper-case to accepted symbols |
| Routes.UpperIdempotent | routes.py:17 | upper-casing twice equals upper-casing once |
| Routes.UpperLowerRoundTrip | routes.py:17-20 | a symbol of capitals survives lower-casing and then upper-casing |
| Routes.LowercaseSymbolAccepted | routes.py:17-20 | every accepted symbol is also accepted in lower case |
| Routes.RequestedSymbol | routes.py:15-17 | the symbol is the upper-cased `crypto` member, '' when it is absent, and an exception when the body is no object or the member is no string |
| Routes.DecidePredict | routes.py:13-55 | 400 with the list message iff the upper-cased symbol is outside the ten. 500 iff the body cannot be read, or the symbol is valid and the model gives nothing. Otherwise it accepts with the model's result |
| Routes.DecidePredictIgnoresCase | routes.py:17-20 | a request differing only in the case of its symbol gets the same answer |
| Routes.InsertNewest | routes.py:62 | inserting into a newest-first sequence keeps it newest-first and adds exactly that row |
| Routes.SortNewestFirst | routes.py:62 | `ORDER BY date DESC` gives a newest-first permutation of the table |
| Routes.Latest | routes.py:62 | `LIMIT 7` returns min(7, table size) rows, newest first, all from the table. Every row left out is no newer than the last row returned |
| Routes.PrefixIsNewest | routes.py:62 | a prefix of a newest-first sequence holds its newest rows |
| Routes.PredictionStore.Predict | routes.py:13-55 | a rejected request returns its status and message and leaves the table alone. An accepted one appends exactly one row (symbol, forecast, forecast date, no actual price, fresh id) and echoes the model's figures with that id |
| Routes.PredictionStore.History | routes.py:58-76 | always a success carrying the (at most 7) newest rows. The list is empty, with the "no predictions" message, exactly when the table is empty |
| Routes.ChartData | routes.py:83-103 | the symbol defaults to BTC and is upper-cased, and days defaults to 30. a 400 reply (always "Invalid cryptocurrency") iff the symbol is outside the ten. 500 iff the download is missing or empty. Otherwise the reply is a success carrying exactly the download under the symbol |
| Routes.ChartDataDefaults | routes.py:86-87 | omitting both arguments is the same as asking for 30 days of BTC |

## Left out

- The markup is not modelled: `innerHTML` strings, spinners, feather icons and Tailwind class lists. Only the choices they encode are kept: sign and colour, active period, empty/rows/error view, and the analysis panel's state.
- The `dark` class on the page and the toggle's sun/moon icon are not fields. `applyDarkMode` sets both from `isDarkMode` every time it runs, and it runs right after every change of `isDarkMode`.
- `fetch`, `response.json()` and `localStorage` are not modelled as APIs. Replies are `Fetch` parameters, and the stored theme is an `Option<string>` field.
- Async interleaving is not modelled. Handlers run one after another, and the replies to un-awaited requests are applied at once. That covers history and statistics, and the chart loads in `init`, `handleChartPeriod`, `applyDarkMode` and the selector's change listener (static/js/app.js:27, 435, 460, 52). The code has no cancellation or generation token to model.
- The markup's initial state is taken as given: predict enabled, analyze disabled, no banner, panel or overlay shown.
- `loadPortfolio` and the portfolio are not modelled: the method is an empty placeholder, and there is no portfolio route.
- Chart.js option objects are not modelled beyond the data, the symbol colours and the theme colours.
- Number and date formatting (`toLocaleString`, `toFixed`, `toLocaleDateString`, `strftime`) is not modelled. Prices are `real`, dates are strings, and NaN from `parseInt` is not represented.
- AppView.HasActual: JavaScript truthiness of `actual_price` is modelled for a present number (0 is falsy), not for other JSON values.
- App.CryptoPredictorApp.FinishAnalyze: an ok analysis reply is assumed to carry an `analysis` string. A reply without one makes the browser throw, and that path is not modelled.
- Routes.Upper: Python's `str.upper` is modelled only for the characters whose upper case is a single ASCII capital: 'a'..'z', 'ı' and 'ſ'. Other case mappings (such as 'é' to 'É', 'ß' to 'SS' or the ligature 'ﬁ' to 'FI') are left out. None of them produces one of the ten symbols, so no accept or reject decision depends on them.
- App.CryptoPredictorApp.Valid: "the analyze button is enabled only with a stored forecast" holds because handlers run to completion one at a time. On the page, Predict stays clickable while an analysis request is out. `handlePredict` then clears the forecast (static/js/app.js:84), and the analysis's `finally` (static/js/app.js:167) re-enables the button with no forecast stored. The model does not reach that state, and `FinishAnalyze` requires a stored forecast.
- Routes.PredictionStore.Predict: a failing database commit (a 500 from the `except` at routes.py:53-55) is not modelled. The row's time stamp is the parameter `now`.
- Routes.PredictionStore.History: the 500 reply on a database exception (routes.py:78-80) and `to_dict`'s rounding and date formatting (models.py) are not modelled.
- Routes.ChartData: the 500 reply for an exception in `chart_data` (routes.py:105-107) is not modelled. A non-integer `days` argument arrives as `None` and takes the default.
- MlModel.PredictPrice: the download, the regressor and the date are parameters. The exception path (ml_model.py:149-151) and the floating-point `change_percent` (ml_model.py:145) are not modelled.
- MlModel.PrepareFeatures: `lookback` is a natural number, so a negative `lookback_days` is not represented.
- `get_crypto_data`, `get_historical_data`, `train_model`, `load_or_train_models`, the pickle files and the error metrics are not modelled: they wrap yfinance, scikit-learn and file I/O. train_model.py is a driver script and is not part of this model.
