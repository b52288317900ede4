// The portfolio tracker: market data per ticker, price alerts, the stock screener and
// the portfolio's total value and allocation.
module Portfolio {
  import opened Common
  import opened PyFormat

  // ---------------------------------------------------------------------------
  // Market data
  // ---------------------------------------------------------------------------

  /** What the market-data fetch stores for a ticker: a failed lookup (`{'price': 0,
      'error': ...}`) or the quote's fields, with the library's defaults applied.
      `fromHistory` tells where the price came from: the last close of a non-empty day
      history (a numpy float, whose division by zero gives an infinity or NaN) or the
      info record's `currentPrice` (a Python number, whose division by zero raises). */
  datatype Quote =
    | Failed(error: string)
    | Quote(price: real, previousClose: real, marketCap: real, peRatio: real, volume: real,
            sector: string, high52: real, low52: real, fromHistory: bool)

  /** `market_data[t]['price']`: a failed lookup carries price 0. */
  function PriceOf(q: Quote): real {
    if q.Failed? then 0.0 else q.price
  }

  /** The tickers in order of first appearance: the keys of the dict the fetch fills. */
  function Dedup(ts: seq<string>): (r: seq<string>)
    ensures forall i, j :: 0 <= i < j < |r| ==> r[i] != r[j]
    ensures forall t :: t in r <==> t in ts
    decreases |ts|
  {
    if ts == [] then []
    else
      var init := Dedup(ts[..|ts| - 1]);
      if ts[|ts| - 1] in init then init else init + [ts[|ts| - 1]]
  }

  /** `fetch_market_data(tickers)`: one entry per distinct ticker, in first-appearance
      order; `fetch` stands for the library lookup of one ticker. */
  function FetchAll(tickers: seq<string>, fetch: string -> Quote): (entries: seq<(string, Quote)>)
    ensures |entries| == |Dedup(tickers)|
    ensures forall k :: 0 <= k < |entries| ==> entries[k] == (Dedup(tickers)[k], fetch(Dedup(tickers)[k]))
  {
    var ts := Dedup(tickers);
    seq(|ts|, k requires 0 <= k < |ts| => (ts[k], fetch(ts[k])))
  }

  /** The dict view of fetched entries. */
  function ToMap(entries: seq<(string, Quote)>): (m: map<string, Quote>)
    ensures forall k :: 0 <= k < |entries| ==> entries[k].0 in m
    ensures forall t :: t in m ==> exists k :: 0 <= k < |entries| && entries[k] == (t, m[t])
    decreases |entries|
  {
    if entries == [] then map[]
    else
      var last := entries[|entries| - 1];
      var init := ToMap(entries[..|entries| - 1]);
      assert forall k :: 0 <= k < |entries| - 1 ==> entries[..|entries| - 1][k] == entries[k];
      init[last.0 := last.1]
  }

  // ---------------------------------------------------------------------------
  // Price alerts
  // ---------------------------------------------------------------------------

  /** The levels configured for one ticker. */
  datatype Targets = Targets(above: Option<real>, below: Option<real>)

  /** A triggered alert: the ticker, the configured level and the price that hit it. */
  datatype Alert = Above(ticker: string, level: real, price: real) | Below(ticker: string, level: real, price: real)

  /** The alerts one configured ticker triggers: none without market data; otherwise
      `above` when the price reached it and `below` when the price fell to it. */
  function AlertsFor(ticker: string, targets: Targets, marketData: map<string, Quote>): seq<Alert> {
    if ticker !in marketData then []
    else
      var p := PriceOf(marketData[ticker]);
      (if targets.above.Some? && p >= targets.above.value then [Above(ticker, targets.above.value, p)] else [])
      + (if targets.below.Some? && p <= targets.below.value then [Below(ticker, targets.below.value, p)] else [])
  }

  /** All triggered alerts, in the configured order. */
  function AlertsOf(alerts: seq<(string, Targets)>, marketData: map<string, Quote>): seq<Alert> {
    ConcatMap(alerts, AlertsAt(marketData))
  }

  function AlertsAt(marketData: map<string, Quote>): ((string, Targets)) -> seq<Alert> {
    (e: (string, Targets)) => AlertsFor(e.0, e.1, marketData)
  }

  /** An alert fires exactly when the ticker has market data and its price (0 for a
      failed lookup) is at or above the `above` level, or at or below the `below` level;
      both can fire at once. */
  lemma AlertsForIff(ticker: string, targets: Targets, marketData: map<string, Quote>, a: Alert)
    ensures a in AlertsFor(ticker, targets, marketData) <==>
      a.ticker == ticker && ticker in marketData && a.price == PriceOf(marketData[ticker])
      && (if a.Above? then targets.above == Some(a.level) && a.price >= a.level
          else targets.below == Some(a.level) && a.price <= a.level)
  {
  }

  /** A triggered alert belongs to one configured ticker, and every alert a configured
      ticker triggers is reported. */
  lemma AlertsOfIff(alerts: seq<(string, Targets)>, marketData: map<string, Quote>, a: Alert)
    ensures a in AlertsOf(alerts, marketData) <==>
      exists i :: 0 <= i < |alerts| && a in AlertsFor(alerts[i].0, alerts[i].1, marketData)
  {
    ConcatMapIff(alerts, AlertsAt(marketData), a);
  }

  /** A ticker whose lookup failed still has its alerts checked, at price 0: any `below`
      level of 0 or more fires. */
  lemma FailedLookupAlerts(ticker: string, level: real, marketData: map<string, Quote>)
    requires ticker in marketData && marketData[ticker].Failed? && level >= 0.0
    ensures Below(ticker, level, 0.0) in AlertsFor(ticker, Targets(None, Some(level)), marketData)
  {
    AlertsForIff(ticker, Targets(None, Some(level)), marketData, Below(ticker, level, 0.0));
  }

  // ---------------------------------------------------------------------------
  // The screener
  // ---------------------------------------------------------------------------

  /** The screener's thresholds; a missing one means no limit (0, infinity, 0). */
  datatype Criteria = Criteria(minVolume: Option<real>, maxPe: Option<real>, minMarketCap: Option<real>)

  /** The configuration the tracker writes when it finds none. */
  const DEFAULT_CRITERIA := Criteria(Some(1000000.0), Some(50.0), Some(1000000000.0))

  /** A quote the screener keeps: enough volume, no truthy PE above the maximum, enough
      market capitalisation. */
  predicate Passes(c: Criteria, q: Quote)
    requires q.Quote?
  {
    !(q.volume < OrZero(c.minVolume))
    && !(q.peRatio != 0.0 && c.maxPe.Some? && q.peRatio > c.maxPe.value)
    && !(q.marketCap < OrZero(c.minMarketCap))
  }

  function Screens(c: Criteria): ((string, Quote)) -> bool {
    (e: (string, Quote)) => e.1.Quote? && Passes(c, e.1)
  }

  /** How far below its 52-week high the price is, in percent; 0 without a high. */
  function FromHigh(q: Quote): real
    requires q.Quote?
  {
    if q.high52 != 0.0 then (q.high52 - q.price) / q.high52 * 100.0 else 0.0
  }

  /** A screener row; `pe` is `None` where the table shows `N/A`. */
  datatype Match = Match(ticker: string, price: real, pe: Option<real>, volume: real, sector: string, fromHigh: real)

  function MatchOf(e: (string, Quote)): (m: Match)
    requires e.1.Quote?
    ensures m.ticker == e.0 && m.price == e.1.price
    ensures m.pe.None? <==> e.1.peRatio == 0.0
  {
    Match(e.0, e.1.price, if e.1.peRatio != 0.0 then Some(e.1.peRatio) else None, e.1.volume,
          e.1.sector, FromHigh(e.1))
  }

  /** The rows the screener produces from fetched entries, in order. */
  function Screened(entries: seq<(string, Quote)>, c: Criteria): seq<Match>
    decreases |entries|
  {
    if entries == [] then []
    else
      var last := entries[|entries| - 1];
      Screened(entries[..|entries| - 1], c) + (if Screens(c)(last) then [MatchOf(last)] else [])
  }

  /** Every row comes from an entry without error that meets all three thresholds, and
      every such entry gives a row. */
  lemma {:induction false} ScreenedIff(entries: seq<(string, Quote)>, c: Criteria, m: Match)
    ensures m in Screened(entries, c) <==>
      exists i :: 0 <= i < |entries| && entries[i].1.Quote?
        && entries[i].1.volume >= OrZero(c.minVolume)
        && (entries[i].1.peRatio == 0.0 || c.maxPe.None? || entries[i].1.peRatio <= c.maxPe.value)
        && entries[i].1.marketCap >= OrZero(c.minMarketCap)
        && m == MatchOf(entries[i])
    decreases |entries|
  {
    if entries != [] {
      var init := entries[..|entries| - 1];
      ScreenedIff(init, c, m);
      assert forall i :: 0 <= i < |init| ==> init[i] == entries[i];
    }
  }

  /** The distance from the high is 0 without a high and never negative when the price
      is at most a positive high. */
  lemma FromHighBounds(q: Quote)
    requires q.Quote?
    ensures q.high52 == 0.0 ==> FromHigh(q) == 0.0
    ensures 0.0 <= q.price <= q.high52 ==> 0.0 <= FromHigh(q) <= 100.0
  {
    if 0.0 <= q.price <= q.high52 && q.high52 != 0.0 {
      assert (q.high52 - q.price) / q.high52 <= 1.0;
    }
  }

  // ---------------------------------------------------------------------------
  // Portfolio analysis
  // ---------------------------------------------------------------------------

  /** A holding with usable market data. */
  predicate Priced(holding: (string, real), marketData: map<string, Quote>) {
    holding.0 in marketData && marketData[holding.0].Quote?
  }

  function ValueOf(holding: (string, real), marketData: map<string, Quote>): real
    requires Priced(holding, marketData)
  {
    holding.1 * marketData[holding.0].price
  }

  /** `total_value`: shares times price, summed over the holdings with usable data. */
  function TotalValue(portfolio: seq<(string, real)>, marketData: map<string, Quote>): real
    decreases |portfolio|
  {
    if portfolio == [] then 0.0
    else
      var last := portfolio[|portfolio| - 1];
      TotalValue(portfolio[..|portfolio| - 1], marketData)
      + (if Priced(last, marketData) then ValueOf(last, marketData) else 0.0)
  }

  /** The day's change in percent as a float: a number, or what a numpy division by a
      zero previous close gives (printed `+inf%`, `-inf%` or `+nan%`). */
  datatype Change = Finite(pct: real) | PlusInfinity | MinusInfinity | NotANumber

  /** Whether the change of a quote raises `ZeroDivisionError`: a zero previous close
      with a Python-number price. */
  predicate RaisesAt(q: Quote) {
    q.Quote? && q.previousClose == 0.0 && !q.fromHistory
  }

  /** `(price - previous_close) / previous_close * 100` where it does not raise. */
  function ChangeOf(q: Quote): (c: Change)
    requires q.Quote? && !RaisesAt(q)
  {
    if q.previousClose != 0.0 then Finite((q.price - q.previousClose) / q.previousClose * 100.0)
    else if q.price > 0.0 then PlusInfinity
    else if q.price < 0.0 then MinusInfinity
    else NotANumber
  }

  /** The change is finite exactly when the previous close is not 0, and then it has the
      sign of the move; a zero previous close, possible only with a history price, gives
      an infinity of the price's sign, or NaN for a zero price. */
  lemma ChangeOfCases(q: Quote)
    requires q.Quote? && !RaisesAt(q)
    ensures ChangeOf(q).Finite? <==> q.previousClose != 0.0
    ensures ChangeOf(q).Finite? && q.previousClose > 0.0 ==> (ChangeOf(q).pct > 0.0 <==> q.price > q.previousClose)
    ensures ChangeOf(q).Finite? ==> (ChangeOf(q).pct == 0.0 <==> q.price == q.previousClose)
    ensures !ChangeOf(q).Finite? ==> q.fromHistory
    ensures ChangeOf(q) == PlusInfinity <==> q.previousClose == 0.0 && q.price > 0.0
    ensures ChangeOf(q) == NotANumber <==> q.previousClose == 0.0 && q.price == 0.0
  {
    if q.previousClose > 0.0 {
      var d := q.price - q.previousClose;
      assert d / q.previousClose > 0.0 <==> d > 0.0;
    }
    if q.previousClose != 0.0 {
      assert (q.price - q.previousClose) / q.previousClose == 0.0 <==> q.price - q.previousClose == 0.0;
    }
  }

  /** A row of the analysis; `pe` is `None` where the table shows `N/A`. */
  datatype Row = Row(ticker: string, shares: real, price: real, value: real, change: Change, sector: string,
                     pe: Option<real>, allocation: real)

  /** The row for a priced holding before allocation. */
  function RowOf(holding: (string, real), marketData: map<string, Quote>): Row
    requires Priced(holding, marketData) && !RaisesAt(marketData[holding.0])
  {
    var q := marketData[holding.0];
    Row(holding.0, holding.1, q.price, ValueOf(holding, marketData), ChangeOf(q), q.sector,
        if q.peRatio != 0.0 then Some(q.peRatio) else None, 0.0)
  }

  /** Whether a priced holding's change raises `ZeroDivisionError`. */
  predicate Raises(portfolio: seq<(string, real)>, marketData: map<string, Quote>) {
    exists i :: 0 <= i < |portfolio| && Priced(portfolio[i], marketData)
      && RaisesAt(marketData[portfolio[i].0])
  }

  /** When every priced holding's price is a history close the analysis never raises:
      a zero previous close then gives a non-finite change and the row is kept. */
  lemma {:induction false} HistoryPricesNeverRaise(portfolio: seq<(string, real)>, marketData: map<string, Quote>)
    requires forall t :: t in marketData && marketData[t].Quote? ==> marketData[t].fromHistory
    ensures !Raises(portfolio, marketData)
    ensures forall i :: 0 <= i < |portfolio| && Priced(portfolio[i], marketData) ==>
              RowOf(portfolio[i], marketData) in RowsOf(portfolio, marketData)
    decreases |portfolio|
  {
    if portfolio != [] {
      var init := portfolio[..|portfolio| - 1];
      HistoryPricesNeverRaise(init, marketData);
      forall i | 0 <= i < |portfolio| && Priced(portfolio[i], marketData)
        ensures RowOf(portfolio[i], marketData) in RowsOf(portfolio, marketData)
      {
        if i < |init| {
          assert init[i] == portfolio[i];
        }
      }
    }
  }

  /** The rows of the priced holdings, in portfolio order, before allocation. */
  function RowsOf(portfolio: seq<(string, real)>, marketData: map<string, Quote>): (rows: seq<Row>)
    requires !Raises(portfolio, marketData)
    ensures |rows| <= |portfolio|
    decreases |portfolio|
  {
    if portfolio == [] then []
    else
      var last := portfolio[|portfolio| - 1];
      var init := portfolio[..|portfolio| - 1];
      assert !Raises(init, marketData) by {
        forall i | 0 <= i < |init| ensures !(Priced(init[i], marketData) && RaisesAt(marketData[init[i].0])) {
          assert init[i] == portfolio[i];
        }
      }
      assert !(Priced(last, marketData) && RaisesAt(marketData[last.0])) by {
        assert last == portfolio[|portfolio| - 1];
      }
      RowsOf(init, marketData) + (if Priced(last, marketData) then [RowOf(last, marketData)] else [])
  }

  /** `Allocation%`: the row's value as printed (to the cent) over the total, in percent;
      0 when the total is not positive. */
  function Allocation(value: real, total: real): real {
    if total > 0.0 then Round2(value) / total * 100.0 else 0.0
  }

  function SumValues(rows: seq<Row>): real
    decreases |rows|
  {
    if rows == [] then 0.0 else SumValues(rows[..|rows| - 1]) + rows[|rows| - 1].value
  }

  function SumRounded(rows: seq<Row>): real
    decreases |rows|
  {
    if rows == [] then 0.0 else SumRounded(rows[..|rows| - 1]) + Round2(rows[|rows| - 1].value)
  }

  function SumAllocations(rows: seq<Row>): real
    decreases |rows|
  {
    if rows == [] then 0.0 else SumAllocations(rows[..|rows| - 1]) + rows[|rows| - 1].allocation
  }

  /** The rows with their allocation filled in. */
  function Allocated(rows: seq<Row>, total: real): (r: seq<Row>)
    ensures |r| == |rows|
    ensures forall k :: 0 <= k < |rows| ==> r[k] == rows[k].(allocation := Allocation(rows[k].value, total))
  {
    seq(|rows|, k requires 0 <= k < |rows| => rows[k].(allocation := Allocation(rows[k].value, total)))
  }

  /** The total is the sum of the rows' values. */
  lemma {:induction false} TotalIsRowSum(portfolio: seq<(string, real)>, marketData: map<string, Quote>)
    requires !Raises(portfolio, marketData)
    ensures TotalValue(portfolio, marketData) == SumValues(RowsOf(portfolio, marketData))
    decreases |portfolio|
  {
    if portfolio != [] {
      var init := portfolio[..|portfolio| - 1];
      assert !Raises(init, marketData) by {
        forall i | 0 <= i < |init| ensures !(Priced(init[i], marketData) && RaisesAt(marketData[init[i].0])) {
          assert init[i] == portfolio[i];
        }
      }
      TotalIsRowSum(init, marketData);
      var last := portfolio[|portfolio| - 1];
      var r := RowsOf(init, marketData);
      if Priced(last, marketData) {
        assert RowsOf(portfolio, marketData) == r + [RowOf(last, marketData)];
        var rows := r + [RowOf(last, marketData)];
        assert rows[..|rows| - 1] == r;
        assert SumValues(rows) == SumValues(r) + ValueOf(last, marketData);
      } else {
        assert RowsOf(portfolio, marketData) == r;
      }
    }
  }

  /** No holding up to `i` raises when none before `i` does and the one at `i` does not. */
  lemma RaisesExtend(portfolio: seq<(string, real)>, marketData: map<string, Quote>, i: nat)
    requires i < |portfolio| && !Raises(portfolio[..i], marketData)
    requires !(Priced(portfolio[i], marketData) && RaisesAt(marketData[portfolio[i].0]))
    ensures !Raises(portfolio[..i + 1], marketData)
  {
    var q := portfolio[..i + 1];
    forall j | 0 <= j < |q| ensures !(Priced(q[j], marketData) && RaisesAt(marketData[q[j].0])) {
      if j < i { assert q[j] == portfolio[..i][j]; }
    }
  }

  /** With a positive total the allocations add up to 100 times the rounded values over
      the total: exactly 100 when every value is a whole number of cents. */
  lemma {:induction false} AllocationsSum(rows: seq<Row>, total: real)
    requires total > 0.0
    ensures SumAllocations(Allocated(rows, total)) == SumRounded(rows) / total * 100.0
    decreases |rows|
  {
    if rows != [] {
      var init := rows[..|rows| - 1];
      var a := Allocated(rows, total);
      assert a[..|a| - 1] == Allocated(init, total);
      AllocationsSum(init, total);
      var x := SumRounded(init);
      var y := Round2(rows[|rows| - 1].value);
      assert x / total * 100.0 + y / total * 100.0 == (x + y) / total * 100.0 by {
        DivAdd(x, y, total);
      }
    }
  }

  lemma DivAdd(x: real, y: real, t: real)
    requires t > 0.0
    ensures x / t * 100.0 + y / t * 100.0 == (x + y) / t * 100.0
  {
    assert x / t + y / t == (x + y) / t;
  }

  /** With a total of 0 or less every allocation is 0. */
  lemma AllocationsZero(rows: seq<Row>, total: real, k: nat)
    requires total <= 0.0 && k < |rows|
    ensures Allocated(rows, total)[k].allocation == 0.0
  {
  }

  // ---------------------------------------------------------------------------
  // The tracker
  // ---------------------------------------------------------------------------

  /** The part of the configuration the tracker reads. */
  datatype Config = Config(watchlist: seq<string>, alerts: seq<(string, Targets)>, criteria: Criteria)

  const DEFAULT_CONFIG := Config([], [], DEFAULT_CRITERIA)

  /** What the analysis returns: the rows and the total, or the error it raises. */
  datatype Analysis = Analysis(rows: seq<Row>, total: real) | ZeroDivision

  class PortfolioTracker {
    var config: Config
    /** The holdings, ticker and shares, in the dict's order. */
    var portfolio: seq<(string, real)>
    var marketData: map<string, Quote>

    /** A tracker with the loaded configuration, or the default one when there is no
        configuration file. */
    constructor(loaded: Option<Config>)
      ensures config == loaded.GetOr(DEFAULT_CONFIG) && portfolio == [] && marketData == map[]
    {
      config := loaded.GetOr(DEFAULT_CONFIG);
      portfolio := [];
      marketData := map[];
    }

    /** `check_alerts`: the alerts triggered by the current market data. */
    method CheckAlerts() returns (triggered: seq<Alert>)
      ensures triggered == AlertsOf(config.alerts, marketData)
    {
      var alerts := config.alerts;
      triggered := [];
      for i := 0 to |alerts|
        invariant triggered == AlertsOf(alerts[..i], marketData)
      {
        ConcatMapSnoc(alerts, i, AlertsAt(marketData));
        ghost var before := triggered;
        var (ticker, targets) := alerts[i];
        if ticker in marketData {
          var price := PriceOf(marketData[ticker]);
          if targets.above.Some? && price >= targets.above.value {
            triggered := triggered + [Above(ticker, targets.above.value, price)];
          }
          if targets.below.Some? && price <= targets.below.value {
            triggered := triggered + [Below(ticker, targets.below.value, price)];
          }
        }
        assert triggered == before + AlertsFor(ticker, targets, marketData);
      }
      assert alerts[..|alerts|] == alerts;
    }

    /** `screen_stocks(universe)`: without a universe the watchlist is screened, and an
        empty watchlist gives no rows. */
    method ScreenStocks(universe: Option<seq<string>>, fetch: string -> Quote) returns (matches: seq<Match>)
      ensures universe.None? && config.watchlist == [] ==> matches == []
      ensures matches == Screened(FetchAll(universe.GetOr(config.watchlist), fetch), config.criteria)
    {
      var tickers := universe.GetOr(config.watchlist);
      if universe.None? && tickers == [] {
        assert Dedup(tickers) == [];
        return [];
      }
      var entries := FetchAll(tickers, fetch);
      matches := [];
      for i := 0 to |entries|
        invariant matches == Screened(entries[..i], config.criteria)
      {
        assert entries[..i + 1][..i] == entries[..i];
        var (ticker, data) := entries[i];
        if data.Failed? {
          continue;
        }
        if data.volume < OrZero(config.criteria.minVolume) {
          continue;
        }
        if data.peRatio != 0.0 && config.criteria.maxPe.Some? && data.peRatio > config.criteria.maxPe.value {
          continue;
        }
        if data.marketCap < OrZero(config.criteria.minMarketCap) {
          continue;
        }
        matches := matches + [MatchOf((ticker, data))];
      }
      assert entries[..|entries|] == entries;
    }

    /** `analyze_portfolio`: stores the market data of the holdings, then either raises
        on a zero previous close under a Python-number price or returns the rows of the priced holdings, with their
        allocation, and the total value. */
    method AnalyzePortfolio(fetch: string -> Quote) returns (result: Analysis)
      modifies this
      ensures config == old(config) && portfolio == old(portfolio)
      ensures marketData == ToMap(FetchAll(Keys(portfolio), fetch))
      ensures Raises(portfolio, marketData) <==> result.ZeroDivision?
      ensures result.Analysis? ==>
        !Raises(portfolio, marketData)
        && result.total == TotalValue(portfolio, marketData)
        && result.rows == Allocated(RowsOf(portfolio, marketData), result.total)
    {
      marketData := ToMap(FetchAll(Keys(portfolio), fetch));
      var raised, rows, total := SumHoldings(portfolio, marketData);
      if raised {
        return ZeroDivision;
      }
      var shown := AllocateRows(rows, total);
      result := Analysis(shown, total);
    }
  }

  /** The loop over the holdings: stops at the first priced holding whose change raises;
      otherwise the rows and the running total of the priced holdings. */
  method SumHoldings(portfolio: seq<(string, real)>, marketData: map<string, Quote>)
    returns (raised: bool, rows: seq<Row>, total: real)
    ensures raised <==> Raises(portfolio, marketData)
    ensures !raised ==> rows == RowsOf(portfolio, marketData) && total == TotalValue(portfolio, marketData)
  {
    rows := [];
    total := 0.0;
    for i := 0 to |portfolio|
      invariant !Raises(portfolio[..i], marketData)
      invariant rows == RowsOf(portfolio[..i], marketData)
      invariant total == TotalValue(portfolio[..i], marketData)
    {
      assert portfolio[..i + 1][..i] == portfolio[..i];
      var holding := portfolio[i];
      if holding.0 in marketData && !marketData[holding.0].Failed? {
        var data := marketData[holding.0];
        if data.previousClose == 0.0 && !data.fromHistory {
          assert Priced(portfolio[i], marketData);
          return true, rows, total;
        }
        var value := holding.1 * data.price;
        total := total + value;
        RaisesExtend(portfolio, marketData, i);
        rows := rows + [RowOf(holding, marketData)];
      } else {
        RaisesExtend(portfolio, marketData, i);
      }
    }
    assert portfolio[..|portfolio|] == portfolio;
    raised := false;
  }

  /** The second loop: each row gets its allocation. */
  method AllocateRows(rows: seq<Row>, total: real) returns (shown: seq<Row>)
    ensures shown == Allocated(rows, total)
  {
    shown := [];
    for i := 0 to |rows|
      invariant shown == Allocated(rows[..i], total)
    {
      shown := shown + [rows[i].(allocation := Allocation(rows[i].value, total))];
    }
    assert rows[..|rows|] == rows;
  }

  /** The tickers of the holdings, in order. */
  function Keys(portfolio: seq<(string, real)>): (ts: seq<string>)
    ensures |ts| == |portfolio| && forall k :: 0 <= k < |ts| ==> ts[k] == portfolio[k].0
  {
    seq(|portfolio|, k requires 0 <= k < |portfolio| => portfolio[k].0)
  }
}
