/**
 * The request decisions of the Flask handlers in routes.py: `predict`,
 * `history` and `chart_data`. The predictions table is a sequence field of
 * `PredictionStore`; the ML model and the historical-price download are
 * function parameters (oracles), and the clock is a parameter `now`.
 */
module Routes {
  import opened Common

  /** The ten symbols both handlers accept, in the order the error message lists them. */
  const ValidCryptos: seq<string> :=
    ["BTC", "ETH", "ADA", "SOL", "MATIC", "DOT", "AVAX", "LINK", "UNI", "LTC"]

  // ---------------------------------------------------------------------------
  // Upper-casing (Python's str.upper, on ASCII letters)

  /**
   * The letters whose upper case is a single ASCII capital: 'a'..'z', and
   * the dotless i and the long s, which Python upper-cases to 'I' and 'S'.
   */
  function UpperChar(c: char): char {
    if 'a' <= c <= 'z' then (c as int - 32) as char
    else if c == '\U{131}' then 'I'
    else if c == '\U{17F}' then 'S'
    else c
  }

  function LowerChar(c: char): char {
    if 'A' <= c <= 'Z' then (c as int + 32) as char else c
  }

  /** `s.upper()`: every letter above replaced by its capital, nothing else touched. */
  function Upper(s: string): (u: string)
    ensures |u| == |s|
    ensures forall i :: 0 <= i < |s| ==> u[i] == UpperChar(s[i])
  {
    if s == [] then [] else [UpperChar(s[0])] + Upper(s[1..])
  }

  /** `s.lower()` on ASCII letters; used only to state case-insensitivity. */
  function Lower(s: string): (l: string)
    ensures |l| == |s|
    ensures forall i :: 0 <= i < |s| ==> l[i] == LowerChar(s[i])
  {
    if s == [] then [] else [LowerChar(s[0])] + Lower(s[1..])
  }

  /** Upper-casing twice changes nothing more. */
  lemma {:induction false} UpperIdempotent(s: string)
    ensures Upper(Upper(s)) == Upper(s)
  {
    if s != [] {
      UpperIdempotent(s[1..]);
      assert Upper(s)[1..] == Upper(s[1..]);
    }
  }

  predicate AllCapitals(s: string) {
    forall i :: 0 <= i < |s| ==> 'A' <= s[i] <= 'Z'
  }

  /** A symbol made of capitals survives lower-casing and upper-casing again. */
  lemma {:induction false} UpperLowerRoundTrip(s: string)
    requires AllCapitals(s)
    ensures Upper(Lower(s)) == s
  {
    if s != [] {
      UpperLowerRoundTrip(s[1..]);
      assert Lower(s)[1..] == Lower(s[1..]);
    }
  }

  /** Every accepted symbol is also accepted written in lower case (routes.py:17-20). */
  lemma LowercaseSymbolAccepted(v: string)
    requires v in ValidCryptos
    ensures Upper(Lower(v)) in ValidCryptos
  {
    UpperLowerRoundTrip(v);
  }

  /** Symbols spelt with a dotless i or a long s are upper-cased to accepted ones. */
  lemma NonAsciiSpellingsAccepted()
    ensures Upper("\U{17F}ol") == "SOL" && "SOL" in ValidCryptos
    ensures Upper("l\U{131}nk") == "LINK" && "LINK" in ValidCryptos
    ensures Upper("un\U{131}") == "UNI" && "UNI" in ValidCryptos
  {
    assert Upper("\U{17F}ol") == [UpperChar('\U{17F}')] + Upper("ol");
    assert Upper("l\U{131}nk") == [UpperChar('l')] + Upper("\U{131}nk");
    assert Upper("un\U{131}") == [UpperChar('u')] + Upper("n\U{131}");
  }

  // ---------------------------------------------------------------------------
  // Responses

  /** A JSON reply: a success body, or `{'error': error}` with an HTTP status. */
  datatype Reply<T> = Success(data: T) | Failure(status: int, error: string)

  function Join(xs: seq<string>, sep: string): string {
    if |xs| == 0 then ""
    else if |xs| == 1 then xs[0]
    else xs[0] + sep + Join(xs[1..], sep)
  }

  function InvalidPredictSymbolMessage(): string {
    "Invalid cryptocurrency. Please select from: " + Join(ValidCryptos, ", ") + "."
  }

  function PredictionFailedMessage(crypto: string): string {
    "Failed to generate prediction for " + crypto + ". Please try again."
  }

  const PredictExceptionMessage := "An error occurred while generating the prediction."

  // ---------------------------------------------------------------------------
  // POST /api/predict

  /** The `crypto` member of the JSON body. */
  datatype Field = Absent | Text(text: string) | NonText

  /** The parsed request body: a JSON object, or anything else (no body, a list, ...). */
  datatype PredictBody = NotAnObject | Object(crypto: Field)

  /** What `predict_price` returns when it succeeds. */
  datatype ModelResult = ModelResult(
    currentPrice: real,
    predictedPrice: real,
    changePercent: real,
    predictionDate: string)

  /** A row of the `predictions` table. `date` is the insertion time stamp. */
  datatype PredictionRow = PredictionRow(
    id: nat,
    crypto: string,
    date: int,
    predictedPrice: real,
    actualPrice: Option<real>,
    predictionDate: string)

  /** The success body of `predict`. */
  datatype Prediction = Prediction(
    crypto: string,
    currentPrice: real,
    predictedPrice: real,
    changePercent: real,
    predictionDate: string,
    predictionId: nat)

  /**
   * The symbol `predict` validates: `data.get('crypto', '').upper()`, or
   * `None` when that expression raises (the body is no object, or the member
   * is not a string).
   */
  function RequestedSymbol(body: PredictBody): (s: Option<string>)
    ensures s.Some? <==> body.Object? && !body.crypto.NonText?
    ensures body.Object? && body.crypto.Absent? ==> s == Some("")
    ensures body.Object? && body.crypto.Text? ==> s == Some(Upper(body.crypto.text))
  {
    match body
    case NotAnObject => None
    case Object(Absent) => Some("")
    case Object(Text(t)) => Some(Upper(t))
    case Object(NonText) => None
  }

  /** The outcome of `predict` before anything is written. */
  datatype PredictDecision = Reject(status: int, error: string) | Accept(crypto: string, result: ModelResult)

  /**
   * The if/return chain of `predict`: an exception while reading the body
   * gives 500; a symbol outside the list gives 400; a model that returns
   * nothing gives 500; otherwise the prediction is accepted.
   */
  function DecidePredict(body: PredictBody, model: string -> Option<ModelResult>): (d: PredictDecision)
    ensures d.Reject? ==> d.status == 400 || d.status == 500
    ensures d.Reject? && d.status == 400 <==>
      RequestedSymbol(body).Some? && RequestedSymbol(body).value !in ValidCryptos
    ensures d.Reject? && d.status == 400 ==> d.error == InvalidPredictSymbolMessage()
    ensures d.Reject? && d.status == 500 <==>
      RequestedSymbol(body).None? ||
      (RequestedSymbol(body).value in ValidCryptos && model(RequestedSymbol(body).value).None?)
    ensures d.Accept? ==>
      && RequestedSymbol(body) == Some(d.crypto)
      && d.crypto in ValidCryptos
      && model(d.crypto) == Some(d.result)
  {
    match RequestedSymbol(body)
    case None => Reject(500, PredictExceptionMessage)
    case Some(crypto) =>
      if crypto !in ValidCryptos then Reject(400, InvalidPredictSymbolMessage())
      else match model(crypto)
        case None => Reject(500, PredictionFailedMessage(crypto))
        case Some(result) => Accept(crypto, result)
  }

  /** A request differing only in the case of its symbol gets the same decision. */
  lemma DecidePredictIgnoresCase(s: string, model: string -> Option<ModelResult>)
    ensures DecidePredict(Object(Text(s)), model) == DecidePredict(Object(Text(Upper(s))), model)
  {
    UpperIdempotent(s);
  }

  // ---------------------------------------------------------------------------
  // GET /api/history

  /** Rows in non-increasing `date` order: `ORDER BY date DESC`. */
  ghost predicate NewestFirst(rows: seq<PredictionRow>) {
    forall i, j :: 0 <= i < j < |rows| ==> rows[j].date <= rows[i].date
  }

  /** Places `r` in the newest-first sequence `rows`, before the rows no newer than it. */
  function InsertNewest(r: PredictionRow, rows: seq<PredictionRow>): (s: seq<PredictionRow>)
    requires NewestFirst(rows)
    ensures NewestFirst(s)
    ensures multiset(s) == multiset(rows) + multiset{r}
    ensures |s| == |rows| + 1
    ensures s[0] == r || (|rows| > 0 && s[0] == rows[0])
  {
    if rows == [] || rows[0].date <= r.date then
      ConsNewest(r, rows);
      [r] + rows
    else
      var tail := InsertNewest(r, rows[1..]);
      assert rows == [rows[0]] + rows[1..];
      ConsNewest(rows[0], tail);
      [rows[0]] + tail
  }

  /** A row no older than the head of a newest-first sequence can go in front of it. */
  lemma ConsNewest(x: PredictionRow, t: seq<PredictionRow>)
    requires NewestFirst(t)
    requires t == [] || t[0].date <= x.date
    ensures NewestFirst([x] + t)
  {
    forall i, j | 0 <= i < j < |t| + 1
      ensures ([x] + t)[j].date <= ([x] + t)[i].date
    {
      if i == 0 && j > 1 {
        assert t[j - 1].date <= t[0].date;
      }
    }
  }

  /** The table in `ORDER BY date DESC` order (ties in some order, as SQL leaves them). */
  function SortNewestFirst(rows: seq<PredictionRow>): (s: seq<PredictionRow>)
    ensures NewestFirst(s)
    ensures multiset(s) == multiset(rows)
  {
    if rows == [] then []
    else
      assert rows == [rows[0]] + rows[1..];
      InsertNewest(rows[0], SortNewestFirst(rows[1..]))
  }

  /** How many rows `history` returns: `.limit(7)`. */
  const HistoryLimit: nat := 7

  /**
   * `ORDER BY date DESC LIMIT n`: the `n` newest rows (all of them if there
   * are fewer), newest first; every row left out is no newer than the last
   * one returned.
   */
  function Latest(rows: seq<PredictionRow>, n: nat): (r: seq<PredictionRow>)
    ensures |r| == if |rows| < n then |rows| else n
    ensures NewestFirst(r)
    ensures multiset(r) <= multiset(rows)
    ensures |r| > 0 ==> forall x :: x in multiset(rows) - multiset(r) ==> x.date <= r[|r| - 1].date
  {
    var sorted := SortNewestFirst(rows);
    assert multiset(sorted) == multiset(rows);
    SameLength(sorted, rows);
    var k := if |sorted| < n then |sorted| else n;
    PrefixIsNewest(sorted, k);
    var r := sorted[..k];
    assert |r| == k;
    assert multiset(rows) - multiset(r) == multiset(sorted) - multiset(sorted[..k]);
    r
  }

  lemma SameLength(a: seq<PredictionRow>, b: seq<PredictionRow>)
    requires multiset(a) == multiset(b)
    ensures |a| == |b|
  {
    assert |a| == |multiset(a)|;
    assert |b| == |multiset(b)|;
  }

  /** A prefix of a newest-first sequence holds its newest rows. */
  lemma PrefixIsNewest(sorted: seq<PredictionRow>, k: nat)
    requires NewestFirst(sorted)
    requires k <= |sorted|
    ensures NewestFirst(sorted[..k])
    ensures multiset(sorted[..k]) <= multiset(sorted)
    ensures k > 0 ==> forall x :: x in multiset(sorted) - multiset(sorted[..k]) ==> x.date <= sorted[..k][k - 1].date
  {
    var p := sorted[..k];
    assert sorted == p + sorted[k..];
    assert multiset(sorted) == multiset(p) + multiset(sorted[k..]);
    if k > 0 {
      forall x | x in multiset(sorted) - multiset(p)
        ensures x.date <= p[k - 1].date
      {
        assert x in multiset(sorted[k..]);
        var j :| 0 <= j < |sorted[k..]| && sorted[k..][j] == x;
        assert sorted[k + j] == x;
      }
    }
  }

  /** The success body of `history`. */
  datatype HistoryBody = HistoryBody(predictions: seq<PredictionRow>, message: Option<string>)

  const NoPredictionsMessage := "No predictions found. Make your first prediction!"

  // ---------------------------------------------------------------------------
  // The predictions table

  /** Primary keys increase along `rows` and stay below `next`. */
  ghost predicate KeysBelow(rows: seq<PredictionRow>, next: nat) {
    && (forall i :: 0 <= i < |rows| ==> rows[i].id < next)
    && (forall i, j :: 0 <= i < j < |rows| ==> rows[i].id < rows[j].id)
  }

  /** A row keyed with the next primary key can be appended. */
  lemma AppendWithNextKey(rows: seq<PredictionRow>, next: nat, row: PredictionRow)
    requires KeysBelow(rows, next) && row.id == next
    ensures KeysBelow(rows + [row], next + 1)
  {
  }

  /** The `predictions` table, with the next primary key the database will hand out. */
  class PredictionStore {
    var rows: seq<PredictionRow>
    var nextId: nat

    /** Primary keys increase along the table and stay below `nextId`. */
    ghost predicate Valid()
      reads this
    {
      KeysBelow(rows, nextId)
    }

    constructor ()
      ensures Valid() && rows == []
    {
      rows := [];
      nextId := 1;
    }

    /**
     * `predict`: a rejected request leaves the table alone; an accepted one
     * appends exactly one row, with no actual price yet, and echoes the
     * model's figures with the new row's id.
     */
    method Predict(body: PredictBody, model: string -> Option<ModelResult>, now: int)
      returns (reply: Reply<Prediction>)
      requires Valid()
      modifies this
      ensures Valid()
      ensures reply.Failure? <==> DecidePredict(body, model).Reject?
      ensures reply.Failure? ==>
        && reply == Failure(DecidePredict(body, model).status, DecidePredict(body, model).error)
        && rows == old(rows) && nextId == old(nextId)
      ensures reply.Success? ==>
        var d := DecidePredict(body, model);
        && reply.data == Prediction(d.crypto, d.result.currentPrice, d.result.predictedPrice,
                                    d.result.changePercent, d.result.predictionDate, old(nextId))
        && rows == old(rows) + [PredictionRow(old(nextId), d.crypto, now, d.result.predictedPrice,
                                              None, d.result.predictionDate)]
    {
      var decision := DecidePredict(body, model);
      match decision
      case Reject(status, error) =>
        reply := Failure(status, error);
      case Accept(crypto, result) =>
        var row := PredictionRow(nextId, crypto, now, result.predictedPrice, None, result.predictionDate);
        AppendWithNextKey(rows, nextId, row);
        rows := rows + [row];
        nextId := nextId + 1;
        reply := Success(Prediction(crypto, result.currentPrice, result.predictedPrice,
                                    result.changePercent, result.predictionDate, row.id));
    }

    /**
     * `history`: always a success; the seven newest rows, and on an empty
     * table an empty list with a message instead of an error.
     */
    method History() returns (reply: Reply<HistoryBody>)
      ensures reply.Success?
      ensures reply.data.predictions == Latest(rows, HistoryLimit)
      ensures |reply.data.predictions| <= HistoryLimit
      ensures reply.data.predictions == [] <==> rows == []
      ensures reply.data.message == if rows == [] then Some(NoPredictionsMessage) else None
    {
      var latest := Latest(rows, HistoryLimit);
      if latest == [] {
        return Success(HistoryBody([], Some(NoPredictionsMessage)));
      }
      return Success(HistoryBody(latest, None));
    }
  }

  // ---------------------------------------------------------------------------
  // GET /api/chart-data

  datatype PricePoint = PricePoint(date: string, price: real)

  /** The success body of `chart_data`. */
  datatype ChartBody = ChartBody(crypto: string, data: seq<PricePoint>)

  const DefaultChartCrypto := "BTC"
  const DefaultChartDays: int := 30

  /**
   * `chart_data`: the `crypto` query argument defaults to BTC and is
   * upper-cased; `days` defaults to 30 when missing or not an integer
   * (`None` here). `historical` is `get_historical_data`.
   */
  function ChartData(cryptoArg: Option<string>, daysArg: Option<int>,
                     historical: (string, int) -> Option<seq<PricePoint>>): (r: Reply<ChartBody>)
    ensures var crypto := Upper(cryptoArg.GetOr(DefaultChartCrypto));
      && (r == Failure(400, "Invalid cryptocurrency") <==> crypto !in ValidCryptos)
      && (r.Failure? && r.status == 400 <==> crypto !in ValidCryptos)
      && (r.Failure? && r.status == 500 <==>
            crypto in ValidCryptos && var h := historical(crypto, daysArg.GetOr(DefaultChartDays));
            h.None? || h.value == [])
      && (r.Success? ==>
            && r.data.crypto == crypto
            && Some(r.data.data) == historical(crypto, daysArg.GetOr(DefaultChartDays))
            && r.data.data != [])
      && (crypto in ValidCryptos ==> var h := historical(crypto, daysArg.GetOr(DefaultChartDays));
            h.Some? && h.value != [] ==> r == Success(ChartBody(crypto, h.value)))
  {
    var crypto := Upper(cryptoArg.GetOr(DefaultChartCrypto));
    var days := daysArg.GetOr(DefaultChartDays);
    if crypto !in ValidCryptos then
      Failure(400, "Invalid cryptocurrency")
    else
      match historical(crypto, days)
      case None => Failure(500, "Failed to get historical data for " + crypto)
      case Some(points) =>
        if points == [] then Failure(500, "Failed to get historical data for " + crypto)
        else Success(ChartBody(crypto, points))
  }

  /** Omitting both query arguments is asking for 30 days of BTC. */
  lemma ChartDataDefaults(historical: (string, int) -> Option<seq<PricePoint>>)
    ensures ChartData(None, None, historical) == ChartData(Some("BTC"), Some(30), historical)
  {
  }
}
