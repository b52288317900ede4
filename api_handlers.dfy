/** The pure halves of three HTTP handlers: the historical-price proxy, the
    prediction-market proxy and the stock-quote proxy. Each request is validated before
    anything is fetched; the upstream answer is a parameter (a function of the
    validated request), and the handler's reply is a `Response`. */
module ApiHandlers {
  import opened Common
  import opened Strs

  /** What a handler sends: an error status with its `error` text, or 200 with a payload. */
  datatype Response<T> = Failure(status: nat, error: string) | Success(payload: T)

  // ---------------------------------------------------------------------------
  // Historical prices
  // ---------------------------------------------------------------------------

  /** `[\w\-\.=\^]`: letters, digits, underscore, hyphen, dot, equals and caret. */
  predicate IsSymbolChar(c: char) {
    'A' <= c <= 'Z' || 'a' <= c <= 'z' || '0' <= c <= '9' || c == '_' || c == '-' || c == '.' || c == '=' || c == '^'
  }

  /** `^[\w\-\.=\^]+$`. */
  predicate ValidSymbol(s: string) {
    |s| > 0 && forall k :: 0 <= k < |s| ==> IsSymbolChar(s[k])
  }

  const VALID_RANGES: seq<string> := ["1d", "5d", "1mo", "3mo", "6mo", "1y", "2y", "5y", "10y", "ytd", "max"]
  const VALID_INTERVALS: seq<string> :=
    ["1m", "2m", "5m", "15m", "30m", "60m", "90m", "1h", "1d", "5d", "1wk", "1mo", "3mo"]

  /** A validated history request. */
  datatype HistoryQuery = HistoryQuery(symbol: string, range: string, interval: string)

  /** The query with its defaults filled in. */
  function HistoryDefaults(symbol: Option<string>, range: Option<string>, interval: Option<string>): HistoryQuery {
    HistoryQuery(OrDefault(symbol, "AAPL"), OrDefault(range, "1y"), OrDefault(interval, "1d"))
  }

  /** The validation of the history handler: symbol first, then range, then interval. */
  function ValidateHistory(symbol: Option<string>, range: Option<string>, interval: Option<string>)
    : (r: Result<HistoryQuery, Response<HistoryReply>>)
    ensures var q := HistoryDefaults(symbol, range, interval);
      (r.Ok? <==> ValidSymbol(q.symbol) && q.range in VALID_RANGES && q.interval in VALID_INTERVALS)
      && (r.Ok? ==> r.value == q)
      && (r.Err? ==> r.error.Failure? && r.error.status == 400)
      && (!ValidSymbol(q.symbol) ==> r == Err(Failure(400, "Invalid symbol format")))
      && (ValidSymbol(q.symbol) && q.range !in VALID_RANGES ==> r == Err(Failure(400, "Invalid range parameter")))
      && (ValidSymbol(q.symbol) && q.range in VALID_RANGES && q.interval !in VALID_INTERVALS
          ==> r == Err(Failure(400, "Invalid interval parameter")))
  {
    var q := HistoryDefaults(symbol, range, interval);
    if !ValidSymbol(q.symbol) then Err(Failure(400, "Invalid symbol format"))
    else if q.range !in VALID_RANGES then Err(Failure(400, "Invalid range parameter"))
    else if q.interval !in VALID_INTERVALS then Err(Failure(400, "Invalid interval parameter"))
    else Ok(q)
  }

  /** A JSON number; JavaScript's `NaN` is its own case. */
  datatype JsNum = Num(v: real) | NaN

  /** One optional column of the upstream quote arrays. */
  type Column = Option<seq<Option<JsNum>>>

  datatype Quotes = Quotes(open: Column, high: Column, low: Column, close: Column, volume: Column)

  /** `result.indicators?.quote?.[0] || {}`: no quote object means no columns at all. */
  const NO_QUOTES: Quotes := Quotes(None, None, None, None, None)

  /** The part of the upstream chart the handler reads. */
  datatype Chart = Chart(timestamps: Option<seq<int>>, quotes: Option<Quotes>, currency: Option<string>)

  /** What the chart service answers: an HTTP failure, a time-out, an error object, no
      result, or a chart. */
  datatype HistoryUpstream =
    | HttpFailure(code: int)
    | TimedOut
    | ChartError(description: Option<string>)
    | NoResult
    | Found(chart: Chart)

  /** One day of the output history; a missing value is `None` (`?? null`). */
  datatype Bar = Bar(date: string, open: Option<JsNum>, high: Option<JsNum>, low: Option<JsNum>,
                     close: Option<JsNum>, volume: Option<JsNum>)

  datatype HistoryReply = HistoryReply(symbol: string, currency: string, history: seq<Bar>)

  /** `quotes.col?.[i] ?? null`. */
  function Cell(col: Column, i: nat): (c: Option<JsNum>)
    ensures col.None? || i >= |col.value| ==> c.None?
    ensures col.Some? && i < |col.value| ==> c == col.value[i]
  {
    if col.Some? && i < |col.value| then col.value[i] else None
  }

  /** The mapped, unfiltered bars: one per timestamp, in timestamp order. `dateOf` is the
      ISO date of a Unix time. */
  function Bars(ts: seq<int>, q: Quotes, dateOf: int -> string): seq<Bar> {
    seq(|ts|, i requires 0 <= i < |ts| =>
      Bar(dateOf(ts[i]), Cell(q.open, i), Cell(q.high, i), Cell(q.low, i), Cell(q.close, i), Cell(q.volume, i)))
  }

  /** `h.close !== null && !isNaN(h.close)`. */
  predicate HasClose(b: Bar) {
    b.close.Some? && b.close.value.Num?
  }

  function History(chart: Chart, dateOf: int -> string): seq<Bar> {
    Filter(Bars(chart.timestamps.GetOr([]), chart.quotes.GetOr(NO_QUOTES), dateOf), HasClose)
  }

  /** The output history keeps exactly the timestamps whose close is a number, in their
      order, with every missing value `None`. */
  lemma HistoryKeeps(chart: Chart, dateOf: int -> string)
    ensures var ts, q := chart.timestamps.GetOr([]), chart.quotes.GetOr(NO_QUOTES);
      var h := History(chart, dateOf);
      |h| <= |ts|
      && (forall b :: b in h ==> HasClose(b) && exists i :: 0 <= i < |ts| && b.date == dateOf(ts[i]) && b.close == Cell(q.close, i))
      && (forall i :: 0 <= i < |ts| && Cell(q.close, i).Some? && Cell(q.close, i).value.Num? ==>
            Bars(ts, q, dateOf)[i] in h)
  {
    var ts, q := chart.timestamps.GetOr([]), chart.quotes.GetOr(NO_QUOTES);
    var bars := Bars(ts, q, dateOf);
    forall b | b in History(chart, dateOf)
      ensures exists i :: 0 <= i < |ts| && b.date == dateOf(ts[i]) && b.close == Cell(q.close, i)
    {
      var i :| 0 <= i < |bars| && bars[i] == b;
    }
  }

  /** The history handler. `fetch` is the chart service's answer to a validated request. */
  function HistoryHandler(symbol: Option<string>, range: Option<string>, interval: Option<string>,
                          fetch: HistoryQuery -> HistoryUpstream, dateOf: int -> string): (r: Response<HistoryReply>)
    ensures r.Success? ==> |r.payload.history| > 0 && forall b :: b in r.payload.history ==> HasClose(b)
  {
    match ValidateHistory(symbol, range, interval)
    case Err(e) => e
    case Ok(q) =>
      match fetch(q)
      case HttpFailure(_) => Failure(500, "Failed to fetch historical data")
      case TimedOut => Failure(504, "Request timeout")
      case ChartError(_) => Failure(404, "Symbol not found")
      case NoResult => Failure(404, "No data found")
      case Found(chart) =>
        var h := History(chart, dateOf);
        if |h| == 0 then Failure(404, "No valid data points")
        else Success(HistoryReply(q.symbol, OrDefault(chart.currency, "USD"), h))
  }

  /** A rejected request is answered without the chart service: the reply is the same
      whatever the service would have said, and it is the first failed check's 400. */
  lemma HistoryRejectsBeforeFetch(symbol: Option<string>, range: Option<string>, interval: Option<string>,
                                  f1: HistoryQuery -> HistoryUpstream, f2: HistoryQuery -> HistoryUpstream,
                                  dateOf: int -> string)
    requires ValidateHistory(symbol, range, interval).Err?
    ensures HistoryHandler(symbol, range, interval, f1, dateOf) == HistoryHandler(symbol, range, interval, f2, dateOf)
    ensures HistoryHandler(symbol, range, interval, f1, dateOf).Failure?
    ensures HistoryHandler(symbol, range, interval, f1, dateOf).status == 400
  {
  }

  /** A chart whose every close is missing or `NaN` is a 404. */
  lemma HistoryNoValidPoints(symbol: Option<string>, range: Option<string>, interval: Option<string>,
                             fetch: HistoryQuery -> HistoryUpstream, dateOf: int -> string)
    requires ValidateHistory(symbol, range, interval).Ok?
    requires var up := fetch(ValidateHistory(symbol, range, interval).value);
      up.Found? && forall i :: 0 <= i < |up.chart.timestamps.GetOr([])| ==>
        !(Cell(up.chart.quotes.GetOr(NO_QUOTES).close, i).Some? && Cell(up.chart.quotes.GetOr(NO_QUOTES).close, i).value.Num?)
    ensures HistoryHandler(symbol, range, interval, fetch, dateOf) == Failure(404, "No valid data points")
  {
    var chart := fetch(ValidateHistory(symbol, range, interval).value).chart;
    FilterNone(Bars(chart.timestamps.GetOr([]), chart.quotes.GetOr(NO_QUOTES), dateOf), HasClose);
  }

  // ---------------------------------------------------------------------------
  // Prediction markets
  // ---------------------------------------------------------------------------

  /** `Math.min(parseInt(limit) || 50, 100)`: `NaN` and 0 are falsy. */
  function MarketsLimit(limit: Option<string>): (n: int)
    ensures n <= 100
    ensures limit.None? ==> n == 50
    ensures limit.Some? && ParseInt(limit.value) in {None, Some(0)} ==> n == 50
    ensures limit.Some? && ParseInt(limit.value).Some? && ParseInt(limit.value) != Some(0) ==>
      n == if ParseInt(limit.value).value <= 100 then ParseInt(limit.value).value else 100
  {
    var parsed := if limit.Some? then ParseInt(limit.value) else None;
    var v := if parsed.Some? && parsed.value != 0 then parsed.value else 50;
    if v <= 100 then v else 100
  }

  /** A limit written as a decimal number is that number capped at 100 (50 for "0"); a
      negative one passes through: there is no lower bound. */
  lemma MarketsLimitOfNumber(i: int)
    ensures MarketsLimit(Some(IntToString(i))) == if i == 0 then 50 else if i <= 100 then i else 100
    ensures i < 0 ==> MarketsLimit(Some(IntToString(i))) == i
  {
    ParseIntOfIntToString(i);
  }

  const VALID_ORDERS: seq<string> := ["volume24hr", "volume", "liquidity", "endDate"]

  /** The normalised upstream request. */
  datatype MarketsQuery = MarketsQuery(closed: bool, limit: int, order: string, ascending: bool)

  /** The markets handler's parameters: `closed` and `ascending` hold only for the exact
      string `true`; the order defaults to `volume24hr` and must be one of four. */
  function ValidateMarkets(limit: Option<string>, closed: Option<string>, order: Option<string>, ascending: Option<string>)
    : (r: Result<MarketsQuery, Response<seq<RawMarket>>>)
    ensures r.Ok? <==> OrDefault(order, "volume24hr") in VALID_ORDERS
    ensures r.Err? ==> r.error == Failure(400, "Invalid order parameter")
    ensures r.Ok? ==>
      && r.value.limit <= 100 && r.value.order in VALID_ORDERS
      && (r.value.closed <==> closed == Some("true")) && (r.value.ascending <==> ascending == Some("true"))
      && (order.None? ==> r.value.order == "volume24hr")
  {
    var o := OrDefault(order, "volume24hr");
    if o !in VALID_ORDERS then Err(Failure(400, "Invalid order parameter"))
    else Ok(MarketsQuery(closed == Some("true"), MarketsLimit(limit), o, ascending == Some("true")))
  }

  /** A market object of the upstream list; `fields` is everything else it carries. */
  datatype RawMarket = RawMarket(id: Json, question: Json, slug: Json, fields: map<string, Json>)

  /** What the market service answers; `items` is the array, `None` for a `null` element. */
  datatype MarketsUpstream =
    | MarketsHttpFailure(code: int)
    | MarketsTimedOut
    | NotArray
    | Listing(items: seq<Option<RawMarket>>)

  /** `market && market.id && market.question && market.slug`. */
  predicate ValidMarket(m: Option<RawMarket>) {
    m.Some? && Truthy(m.value.id) && Truthy(m.value.question) && Truthy(m.value.slug)
  }

  /** The markets kept, in their original order. */
  function ValidMarkets(items: seq<Option<RawMarket>>): seq<RawMarket> {
    Somes(Filter(items, ValidMarket))
  }

  /** The kept markets are exactly the upstream entries with a truthy id, question and slug. */
  lemma ValidMarketsKeeps(items: seq<Option<RawMarket>>)
    ensures |ValidMarkets(items)| <= |items|
    ensures forall m :: m in ValidMarkets(items) <==>
      Some(m) in items && Truthy(m.id) && Truthy(m.question) && Truthy(m.slug)
  {
  }

  function MarketsHandler(limit: Option<string>, closed: Option<string>, order: Option<string>, ascending: Option<string>,
                          fetch: MarketsQuery -> MarketsUpstream): (r: Response<seq<RawMarket>>)
    ensures r.Failure? ==> r.status in {400, 500, 504}
  {
    match ValidateMarkets(limit, closed, order, ascending)
    case Err(e) => e
    case Ok(q) =>
      match fetch(q)
      case MarketsHttpFailure(_) => Failure(500, "Failed to fetch markets")
      case NotArray => Failure(500, "Failed to fetch markets")
      case MarketsTimedOut => Failure(504, "Request timeout")
      case Listing(items) => Success(ValidMarkets(items))
  }

  /** An unknown order is a 400 whatever the service would have said; a body that is not
      an array is a 500. */
  lemma MarketsErrors(limit: Option<string>, closed: Option<string>, order: Option<string>, ascending: Option<string>,
                      f1: MarketsQuery -> MarketsUpstream, f2: MarketsQuery -> MarketsUpstream)
    ensures OrDefault(order, "volume24hr") !in VALID_ORDERS ==>
      MarketsHandler(limit, closed, order, ascending, f1) == MarketsHandler(limit, closed, order, ascending, f2)
      == Failure(400, "Invalid order parameter")
    ensures (OrDefault(order, "volume24hr") in VALID_ORDERS
             && f1(ValidateMarkets(limit, closed, order, ascending).value) == NotArray) ==>
      MarketsHandler(limit, closed, order, ascending, f1) == Failure(500, "Failed to fetch markets")
  {
  }

  // ---------------------------------------------------------------------------
  // Stock quotes
  // ---------------------------------------------------------------------------

  const DEFAULT_SYMBOLS: string := "AAPL,MSFT,GOOGL,AMZN,META,TSLA,NVDA"

  /** At most this many symbols are looked up. */
  const MAX_SYMBOLS: nat := 50

  /** `[A-Z0-9,\-\.]` with the case-insensitive flag. */
  predicate IsListChar(c: char) {
    'A' <= c <= 'Z' || 'a' <= c <= 'z' || '0' <= c <= '9' || c == ',' || c == '-' || c == '.'
  }

  predicate ValidSymbolList(s: string) {
    |s| > 0 && forall k :: 0 <= k < |s| ==> IsListChar(s[k])
  }

  /** The symbols looked up: the first 50 pieces of the comma-split list. */
  function SymbolList(symbols: string): (list: seq<string>)
    ensures |list| <= MAX_SYMBOLS && |list| <= |Split(symbols, ',')| && list == Split(symbols, ',')[..|list|]
    ensures |Split(symbols, ',')| <= MAX_SYMBOLS ==> list == Split(symbols, ',')
  {
    Take(Split(symbols, ','), MAX_SYMBOLS)
  }

  /** A quote field as the service sends it: a bare number or an object with a `raw` value. */
  datatype YahooNum = Plain(v: real) | Wrapped(raw: Option<real>)

  /** `x?.raw || x`: a non-zero `raw` is unwrapped; otherwise the field stays as it is. */
  function Unwrap(x: Option<YahooNum>): (r: Option<YahooNum>)
    ensures x.None? ==> r.None?
    ensures r.Some? && r.value.Wrapped? ==> r == x
    ensures x.Some? && x.value.Plain? ==> r == x
    ensures r != x <==> RawOf(x).Some? && RawOf(x).value != 0.0
    ensures RawOf(x).Some? && RawOf(x).value != 0.0 ==> r == Some(Plain(RawOf(x).value))
  {
    match x
    case Some(Wrapped(Some(raw))) => if raw != 0.0 then Some(Plain(raw)) else x
    case _ => x
  }

  /** `x?.raw`. */
  function RawOf(x: Option<YahooNum>): Option<real> {
    if x.Some? && x.value.Wrapped? then x.value.raw else None
  }

  datatype PriceBlock = PriceBlock(regularMarketPrice: Option<YahooNum>, regularMarketChange: Option<YahooNum>,
                                   regularMarketChangePercent: Option<YahooNum>, regularMarketVolume: Option<YahooNum>,
                                   regularMarketDayHigh: Option<YahooNum>, regularMarketDayLow: Option<YahooNum>)

  /** One symbol's lookup: the fetch threw, the reply was not OK, or a body with or
      without a price block. */
  datatype Lookup = Threw | NotOk | Summary(price: Option<PriceBlock>)

  datatype StockRecord = StockRecord(symbol: string, price: Option<YahooNum>, change: Option<YahooNum>,
                                     changePercent: Option<YahooNum>, volume: Option<YahooNum>,
                                     high: Option<real>, low: Option<real>)

  predicate Priced(l: Lookup) { l.Summary? && l.price.Some? }

  /** The record of one symbol, or `None` for a failed or priceless lookup. */
  function RecordOf(symbol: string, l: Lookup): (r: Option<StockRecord>)
    ensures r.Some? <==> Priced(l)
    ensures r.Some? ==> r.value.symbol == symbol
  {
    if !Priced(l) then None
    else
      var p := l.price.value;
      Some(StockRecord(symbol, Unwrap(p.regularMarketPrice), Unwrap(p.regularMarketChange),
                       Unwrap(p.regularMarketChangePercent), Unwrap(p.regularMarketVolume),
                       RawOf(p.regularMarketDayHigh), RawOf(p.regularMarketDayLow)))
  }

  /** `Promise.all` over the symbols, then the null filter. */
  function Quotes_(list: seq<string>, lookup: string -> Lookup): seq<StockRecord> {
    Somes(seq(|list|, i requires 0 <= i < |list| => RecordOf(list[i], lookup(list[i]))))
  }

  function SymbolOf(r: StockRecord): string { r.symbol }

  function PricedBy(lookup: string -> Lookup): string -> bool {
    s => Priced(lookup(s))
  }

  /** The records are the priced symbols' records, in request order, each under the
      symbol string it was requested with. */
  lemma {:induction false} QuotesInOrder(list: seq<string>, lookup: string -> Lookup)
    ensures |Quotes_(list, lookup)| == |Filter(list, PricedBy(lookup))|
    ensures forall k :: 0 <= k < |Quotes_(list, lookup)| ==>
      Quotes_(list, lookup)[k].symbol == Filter(list, PricedBy(lookup))[k]
    decreases |list|
  {
    if list != [] {
      QuotesInOrder(list[1..], lookup);
      QuotesCons(list, lookup);
      var q, qt := Quotes_(list, lookup), Quotes_(list[1..], lookup);
      var f, ft := Filter(list, PricedBy(lookup)), Filter(list[1..], PricedBy(lookup));
      assert f == (if PricedBy(lookup)(list[0]) then [list[0]] else []) + ft;
      if Priced(lookup(list[0])) {
        forall k | 0 <= k < |q| ensures q[k].symbol == f[k] {
          if k > 0 { assert q[k] == qt[k - 1] && f[k] == ft[k - 1]; }
        }
      }
    }
  }

  /** The first symbol's record, if it has one, followed by the rest's. */
  lemma QuotesCons(list: seq<string>, lookup: string -> Lookup)
    requires list != []
    ensures var r := RecordOf(list[0], lookup(list[0]));
      Quotes_(list, lookup) == (if r.Some? then [r.value] else []) + Quotes_(list[1..], lookup)
  {
    var all := seq(|list|, i requires 0 <= i < |list| => RecordOf(list[i], lookup(list[i])));
    var tail := seq(|list| - 1, i requires 0 <= i < |list| - 1 => RecordOf(list[1..][i], lookup(list[1..][i])));
    assert all[1..] == tail;
  }

  function StocksHandler(symbols: Option<string>, lookup: string -> Lookup): (r: Response<seq<StockRecord>>)
    ensures r.Failure? ==> r.status in {400, 500}
    ensures r.Success? ==> |r.payload| <= MAX_SYMBOLS
  {
    var s := OrDefault(symbols, DEFAULT_SYMBOLS);
    if !ValidSymbolList(s) then Failure(400, "Invalid symbols format")
    else
      var list := SymbolList(s);
      if exists k :: 0 <= k < |list| && lookup(list[k]) == Threw then Failure(500, "Failed to fetch stock data")
      else Success(Quotes_(list, lookup))
  }

  /** With no symbols the default seven are looked up; a malformed list is a 400 before
      any lookup; otherwise the reply holds, in order, the priced ones among the first 50. */
  lemma StocksHandlerKeeps(symbols: Option<string>, lookup: string -> Lookup, other: string -> Lookup)
    ensures var s := OrDefault(symbols, DEFAULT_SYMBOLS);
      (symbols.None? || symbols == Some("") ==> s == DEFAULT_SYMBOLS)
      && (!ValidSymbolList(s) ==> StocksHandler(symbols, lookup) == StocksHandler(symbols, other) == Failure(400, "Invalid symbols format"))
    ensures var r := StocksHandler(symbols, lookup);
      var priced := Filter(SymbolList(OrDefault(symbols, DEFAULT_SYMBOLS)), PricedBy(lookup));
      r.Success? ==> |r.payload| == |priced| && forall k :: 0 <= k < |priced| ==> r.payload[k].symbol == priced[k]
  {
    var s := OrDefault(symbols, DEFAULT_SYMBOLS);
    if ValidSymbolList(s) {
      var list := SymbolList(s);
      QuotesInOrder(list, lookup);
      var r := StocksHandler(symbols, lookup);
      if r.Success? {
        assert r.payload == Quotes_(list, lookup);
      }
    } else {
      assert StocksHandler(symbols, lookup) == Failure(400, "Invalid symbols format");
      assert StocksHandler(symbols, other) == Failure(400, "Invalid symbols format");
    }
  }
}
