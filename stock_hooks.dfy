/** The dashboard's stock hooks: the retrying fetch helper, the validation that turns
    the quote list into a map by symbol, and the state updates of `useStocks` and
    `useStockHistory`. Each fetch attempt's outcome is an input; waiting is recorded as
    the list of back-off delays instead of being performed. */
module StockHooks {
  import opened Common
  import opened Strs
  import ApiHandlers

  // ---------------------------------------------------------------------------
  // fetchWithRetry
  // ---------------------------------------------------------------------------

  /** How one attempt ends: a parsed body, a non-OK reply (with the `error` text of its
      body, when it has one), or a thrown error such as a network failure or time-out. */
  datatype Attempt<T> = Got(body: T) | HttpError(status: nat, statusText: string, bodyError: Option<string>) | Thrown(message: string)

  /** The message of a failed attempt: the body's `error`, else `HTTP <status>: <text>`. */
  function FailureMessage<T>(a: Attempt<T>): string
    requires !a.Got?
  {
    match a
    case HttpError(status, text, bodyError) =>
      if bodyError.Some? && bodyError.value != "" then bodyError.value
      else "HTTP " + NatToString(status) + ": " + text
    case Thrown(m) => m
  }

  /** An error mentioning `400` or `Invalid` is not retried. */
  predicate Fatal(message: string) {
    Contains(message, "400") || Contains(message, "Invalid")
  }

  function Pow2(i: nat): (p: nat)
    ensures p >= 1
  {
    if i == 0 then 1 else 2 * Pow2(i - 1)
  }

  /** The result of the retrying fetch: the body or the error thrown (`None` for
      `undefined`, when no attempt is made), the delays waited, and the attempts made. */
  datatype Retried<T> = Retried(result: Result<T, Option<string>>, waits: seq<nat>, attempts: nat)

  /** The wait after failed attempt `i`: `baseDelay·2^i`, except after the last attempt. */
  function Backoff(maxRetries: nat, baseDelay: nat, i: nat): seq<nat> {
    if i < maxRetries - 1 then [baseDelay * Pow2(i)] else []
  }

  /** The retry policy from attempt `i` on, `last` being the error of attempt `i − 1`. */
  function RetryFrom<T>(outcome: nat -> Attempt<T>, maxRetries: nat, baseDelay: nat, i: nat, last: Option<string>): Retried<T>
    decreases maxRetries - i
  {
    if i >= maxRetries then Retried(Err(last), [], i)
    else
      var a := outcome(i);
      if a.Got? then Retried(Ok(a.body), [], i + 1)
      else
        var m := FailureMessage(a);
        if Fatal(m) then Retried(Err(Some(m)), [], i + 1)
        else
          var w := Backoff(maxRetries, baseDelay, i);
          var rest := RetryFrom(outcome, maxRetries, baseDelay, i + 1, Some(m));
          Retried(rest.result, w + rest.waits, rest.attempts)
  }

  /** `fetchWithRetry(url, maxRetries, baseDelay)`, `outcome(i)` being how attempt `i` ends. */
  method FetchWithRetry<T>(outcome: nat -> Attempt<T>, maxRetries: nat, baseDelay: nat)
    returns (result: Result<T, Option<string>>, waits: seq<nat>, attempts: nat)
    ensures Retried(result, waits, attempts) == RetryFrom(outcome, maxRetries, baseDelay, 0, None)
  {
    var lastError: Option<string> := None;
    waits := [];
    var i := 0;
    assert Prefixed([], RetryFrom(outcome, maxRetries, baseDelay, 0, None)) == RetryFrom(outcome, maxRetries, baseDelay, 0, None);
    while i < maxRetries
      invariant i <= maxRetries
      invariant RetryFrom(outcome, maxRetries, baseDelay, 0, None) == Prefixed(waits, RetryFrom(outcome, maxRetries, baseDelay, i, lastError))
    {
      var a := outcome(i);
      if a.Got? {
        RetryEnds(outcome, maxRetries, baseDelay, i, lastError, waits);
        return Ok(a.body), waits, i + 1;
      }
      var m := FailureMessage(a);
      ghost var prev := lastError;
      lastError := Some(m);
      if Fatal(m) {
        RetryEnds(outcome, maxRetries, baseDelay, i, prev, waits);
        return Err(lastError), waits, i + 1;
      }
      RetryStep(outcome, maxRetries, baseDelay, i, prev, waits);
      ghost var before := waits;
      if i < maxRetries - 1 {
        waits := waits + [baseDelay * Pow2(i)];
      }
      assert waits == before + Backoff(maxRetries, baseDelay, i);
      i := i + 1;
    }
    RetryEnds(outcome, maxRetries, baseDelay, i, lastError, waits);
    return Err(lastError), waits, i;
  }

  /** A run whose earlier attempts already waited `waits`. */
  function Prefixed<T>(waits: seq<nat>, r: Retried<T>): Retried<T> {
    Retried(r.result, waits + r.waits, r.attempts)
  }

  /** The run ends at attempt `i`: it succeeds, fails fatally, or there is none left. */
  lemma RetryEnds<T>(outcome: nat -> Attempt<T>, maxRetries: nat, baseDelay: nat, i: nat, last: Option<string>, waits: seq<nat>)
    requires i >= maxRetries || outcome(i).Got? || Fatal(FailureMessage(outcome(i)))
    ensures var a := outcome(i);
      Prefixed(waits, RetryFrom(outcome, maxRetries, baseDelay, i, last))
        == if i >= maxRetries then Retried(Err(last), waits, i)
           else if a.Got? then Retried(Ok(a.body), waits, i + 1)
           else Retried(Err(Some(FailureMessage(a))), waits, i + 1)
  {
    assert waits + [] == waits;
  }

  /** One retried failure: its wait, if any, comes before those of the later attempts. */
  lemma RetryStep<T>(outcome: nat -> Attempt<T>, maxRetries: nat, baseDelay: nat, i: nat, last: Option<string>, waits: seq<nat>)
    requires i < maxRetries && !outcome(i).Got? && !Fatal(FailureMessage(outcome(i)))
    ensures Prefixed(waits, RetryFrom(outcome, maxRetries, baseDelay, i, last))
      == Prefixed(waits + Backoff(maxRetries, baseDelay, i),
                  RetryFrom(outcome, maxRetries, baseDelay, i + 1, Some(FailureMessage(outcome(i)))))
  {
    var rest := RetryFrom(outcome, maxRetries, baseDelay, i + 1, Some(FailureMessage(outcome(i))));
    assert waits + (Backoff(maxRetries, baseDelay, i) + rest.waits) == waits + Backoff(maxRetries, baseDelay, i) + rest.waits;
  }

  /** Whether attempts `i..j-1` all failed with errors that are retried. */
  predicate RetriedFailures<T>(outcome: nat -> Attempt<T>, i: nat, j: nat) {
    forall k :: i <= k < j ==> !outcome(k).Got? && !Fatal(FailureMessage(outcome(k)))
  }

  /** At most `maxRetries` attempts are made; the `k`-th wait is `baseDelay·2^k`, and there
      is one wait fewer than there are attempts: none after the last. */
  lemma {:induction false} RetryBounds<T>(outcome: nat -> Attempt<T>, maxRetries: nat, baseDelay: nat, i: nat, last: Option<string>)
    requires i <= maxRetries
    ensures var r := RetryFrom(outcome, maxRetries, baseDelay, i, last);
      i <= r.attempts <= maxRetries
      && (i < maxRetries ==> r.attempts > i && |r.waits| == r.attempts - 1 - i)
      && (i == maxRetries ==> r.waits == [] && r.attempts == i)
      && forall k :: 0 <= k < |r.waits| ==> r.waits[k] == baseDelay * Pow2(i + k)
    decreases maxRetries - i
  {
    if i < maxRetries {
      var a := outcome(i);
      if !a.Got? && !Fatal(FailureMessage(a)) {
        var m := FailureMessage(a);
        RetryBounds(outcome, maxRetries, baseDelay, i + 1, Some(m));
        var rest := RetryFrom(outcome, maxRetries, baseDelay, i + 1, Some(m));
        var w := Backoff(maxRetries, baseDelay, i);
        var r := RetryFrom(outcome, maxRetries, baseDelay, i, last);
        assert r.waits == w + rest.waits;
        forall k | 0 <= k < |r.waits| ensures r.waits[k] == baseDelay * Pow2(i + k) {
          if k > 0 { assert r.waits[k] == rest.waits[k - 1]; }
        }
      }
    }
  }

  /** The outcome is decided by the first attempt that succeeds or fails fatally: a body
      is that attempt's body, a fatal error is rethrown at once, and when every attempt
      fails with a retried error the last one is thrown. */
  lemma {:induction false} RetryOutcome<T>(outcome: nat -> Attempt<T>, maxRetries: nat, baseDelay: nat, i: nat, last: Option<string>)
    requires i <= maxRetries
    ensures var r := RetryFrom(outcome, maxRetries, baseDelay, i, last);
      (i < maxRetries ==> r.attempts > i)
      && (r.attempts > i ==> RetriedFailures(outcome, i, r.attempts - 1))
      && (r.result.Ok? ==> r.attempts > i && outcome(r.attempts - 1) == Got(r.result.value))
      && (r.result.Err? && i < r.attempts < maxRetries ==>
            !outcome(r.attempts - 1).Got? && r.result.error == Some(FailureMessage(outcome(r.attempts - 1)))
            && Fatal(FailureMessage(outcome(r.attempts - 1))))
      && (RetriedFailures(outcome, i, maxRetries) && i < maxRetries ==>
            r.attempts == maxRetries && r.result == Err(Some(FailureMessage(outcome(maxRetries - 1)))))
    decreases maxRetries - i
  {
    if i < maxRetries {
      var a := outcome(i);
      if !a.Got? && !Fatal(FailureMessage(a)) {
        RetryOutcome(outcome, maxRetries, baseDelay, i + 1, Some(FailureMessage(a)));
      }
    }
  }

  // ---------------------------------------------------------------------------
  // The stock map
  // ---------------------------------------------------------------------------

  /** One element of the quote list as received; an absent symbol is the empty string,
      an absent number `None`. */
  datatype RawStock = RawStock(symbol: string, price: Json, change: Option<real>, changePercent: Option<real>,
                               volume: Option<real>, fiftyTwoWeekHigh: Option<real>, fiftyTwoWeekLow: Option<real>)

  /** A stock as the dashboard keeps it; the fallback records carry no change, volume or
      52-week range. */
  datatype Stock = Stock(symbol: string, price: real, changePercent: real, change: Option<real>,
                         volume: Option<real>, high52: Option<real>, low52: Option<real>)

  /** `s && s.symbol && typeof s.price === 'number'`. */
  predicate Usable(s: Option<RawStock>) {
    s.Some? && s.value.symbol != "" && s.value.price.JNum?
  }

  /** The record kept for a usable entry: missing numbers become 0, a missing 52-week
      high or low becomes the price. */
  function ToStock(s: RawStock): (r: Stock)
    requires s.price.JNum?
    ensures r.symbol == s.symbol && r.price == s.price.n
    ensures r.change == Some(s.change.GetOr(0.0)) && r.volume == Some(s.volume.GetOr(0.0))
    ensures r.changePercent == s.changePercent.GetOr(0.0)
    ensures r.high52 == Some(s.fiftyTwoWeekHigh.GetOr(s.price.n)) && r.low52 == Some(s.fiftyTwoWeekLow.GetOr(s.price.n))
  {
    Stock(s.symbol, s.price.n, s.changePercent.GetOr(0.0), Some(s.change.GetOr(0.0)), Some(s.volume.GetOr(0.0)),
          Some(s.fiftyTwoWeekHigh.GetOr(s.price.n)), Some(s.fiftyTwoWeekLow.GetOr(s.price.n)))
  }

  /** The map the `forEach` builds: entries in order, a later entry replacing an earlier
      one with the same symbol. */
  function StockMapOf(data: seq<Option<RawStock>>): map<string, Stock>
    decreases |data|
  {
    if data == [] then map[]
    else
      var m := StockMapOf(data[..|data| - 1]);
      var s := data[|data| - 1];
      if Usable(s) then m[s.value.symbol := ToStock(s.value)] else m
  }

  /** Entry `i` is the last usable entry of symbol `k`. */
  predicate Latest(data: seq<Option<RawStock>>, i: int, k: string) {
    0 <= i < |data| && Usable(data[i]) && data[i].value.symbol == k
    && forall j :: i < j < |data| ==> !(Usable(data[j]) && data[j].value.symbol == k)
  }

  /** The map holds a key exactly for the symbols of usable entries. */
  lemma {:induction false} StockMapKeys(data: seq<Option<RawStock>>)
    ensures forall k :: k in StockMapOf(data) <==> exists i :: 0 <= i < |data| && Usable(data[i]) && data[i].value.symbol == k
    decreases |data|
  {
    if data != [] {
      var n := |data| - 1;
      var init := data[..n];
      StockMapKeys(init);
      forall k ensures k in StockMapOf(data) <==> exists i :: 0 <= i < |data| && Usable(data[i]) && data[i].value.symbol == k {
        if k in StockMapOf(data) && k in StockMapOf(init) {
          var i :| 0 <= i < |init| && Usable(init[i]) && init[i].value.symbol == k;
          assert data[i] == init[i];
        }
        if exists i :: 0 <= i < |data| && Usable(data[i]) && data[i].value.symbol == k {
          var i :| 0 <= i < |data| && Usable(data[i]) && data[i].value.symbol == k;
          if i < n {
            assert init[i] == data[i];
          }
        }
      }
    }
  }

  /** Each key holds the record of the last usable entry with that symbol. */
  lemma {:induction false} StockMapValue(data: seq<Option<RawStock>>, k: string)
    requires k in StockMapOf(data)
    ensures exists i :: Latest(data, i, k) && StockMapOf(data)[k] == ToStock(data[i].value)
    decreases |data|
  {
    var n := |data| - 1;
    var init := data[..n];
    if Usable(data[n]) && data[n].value.symbol == k {
      assert Latest(data, n, k);
    } else {
      StockMapValue(init, k);
      var i :| Latest(init, i, k) && StockMapOf(init)[k] == ToStock(init[i].value);
      assert init[i] == data[i];
      assert forall j :: i < j < n ==> data[j] == init[j];
      assert Latest(data, i, k);
    }
  }

  /** The map method: the `forEach` over the received list. */
  method BuildStockMap(data: seq<Option<RawStock>>) returns (stockMap: map<string, Stock>)
    ensures stockMap == StockMapOf(data)
  {
    stockMap := map[];
    for i := 0 to |data|
      invariant stockMap == StockMapOf(data[..i])
    {
      assert data[..i + 1][..i] == data[..i];
      var s := data[i];
      if s.Some? && s.value.symbol != "" && s.value.price.JNum? {
        stockMap := stockMap[s.value.symbol := ToStock(s.value)];
      }
    }
    assert data[..|data|] == data;
  }

  // ---------------------------------------------------------------------------
  // useStocks
  // ---------------------------------------------------------------------------

  /** The body of `/api/stocks`: an array of entries, or anything else. */
  datatype StocksBody = StockArray(items: seq<Option<RawStock>>) | OtherBody

  /** The shown data before anything has been fetched, and on a failure with nothing
      shown: the last known prices of 24 symbols. */
  const FALLBACK_DATA: map<string, Stock> := map[
    "AAPL" := Stock("AAPL", 247.0, 0.42, None, None, None, None),
    "MSFT" := Stock("MSFT", 454.0, -0.18, None, None, None, None),
    "GOOGL" := Stock("GOOGL", 323.0, 0.33, None, None, None, None),
    "AMZN" := Stock("AMZN", 220.0, 0.55, None, None, None, None),
    "NVDA" := Stock("NVDA", 185.0, 1.24, None, None, None, None),
    "META" := Stock("META", 595.0, -0.27, None, None, None, None),
    "TSLA" := Stock("TSLA", 421.0, 2.15, None, None, None, None),
    "PLTR" := Stock("PLTR", 71.0, 1.82, None, None, None, None),
    "HOOD" := Stock("HOOD", 38.0, -0.55, None, None, None, None),
    "COST" := Stock("COST", 1020.0, 0.31, None, None, None, None),
    "JPM" := Stock("JPM", 245.0, 0.12, None, None, None, None),
    "WMT" := Stock("WMT", 95.0, -0.08, None, None, None, None),
    "TGT" := Stock("TGT", 142.0, 0.65, None, None, None, None),
    "PG" := Stock("PG", 170.0, 0.22, None, None, None, None),
    "HIMS" := Stock("HIMS", 28.0, 3.45, None, None, None, None),
    "COIN" := Stock("COIN", 265.0, 2.87, None, None, None, None),
    "SQ" := Stock("SQ", 82.0, 1.12, None, None, None, None),
    "SHOP" := Stock("SHOP", 115.0, 0.88, None, None, None, None),
    "RKLB" := Stock("RKLB", 24.0, 4.22, None, None, None, None),
    "SOFI" := Stock("SOFI", 16.0, 1.55, None, None, None, None),
    "T" := Stock("T", 22.0, -0.33, None, None, None, None),
    "IBM" := Stock("IBM", 235.0, 0.18, None, None, None, None),
    "DIS" := Stock("DIS", 105.0, -0.42, None, None, None, None),
    "IWM" := Stock("IWM", 228.0, 0.55, None, None, None, None)]

  /** The request path for a symbol list. */
  function StocksUrl(symbols: seq<string>): string {
    "/api/stocks?symbols=" + Join(symbols, ',')
  }

  /** The state of `useStocks`: the shown stocks, the error, the loading flag and the
      count of consecutive failures. */
  class StockFeed {
    var stocks: map<string, Stock>
    var error: Option<string>
    var loading: bool
    var retryCount: nat

    /** Something is always shown: the fallback until the first success, then the last
        non-empty map received. */
    predicate Valid()
      reads this
    {
      |stocks| > 0
    }

    constructor ()
      ensures Valid()
      ensures stocks == FALLBACK_DATA && error == None && loading && retryCount == 0
    {
      stocks := FALLBACK_DATA;
      error := None;
      loading := true;
      retryCount := 0;
      assert "AAPL" in FALLBACK_DATA;
    }

    /** One run of `fetchStocks`. `symbols` is `None` when it is not an array; `fetch`
        gives the outcome of each attempt at a URL. On success the new map replaces the
        old one and the failure count is reset; on any failure the error is set, the
        count grows and the shown stocks stay as they were. */
    method FetchStocks(symbols: Option<seq<string>>, fetch: string -> nat -> Attempt<StocksBody>)
      requires Valid()
      modifies this
      ensures Valid() && !loading
      ensures var outcome := if symbols.Some? && |symbols.value| > 0 then Some(StocksOutcome(symbols.value, fetch)) else None;
        if outcome.Some? && outcome.value.Ok? then
          stocks == outcome.value.value && error == None && retryCount == 0
        else
          stocks == old(stocks) && error.Some? && retryCount == old(retryCount) + 1
      ensures symbols.None? || symbols == Some([]) ==> error == Some("Invalid symbols: must be a non-empty array")
      ensures var outcome := if symbols.Some? && |symbols.value| > 0 then Some(StocksOutcome(symbols.value, fetch)) else None;
        outcome.Some? && outcome.value.Err? ==> error == Some(outcome.value.error)
    {
      if symbols.None? || |symbols.value| == 0 {
        Fail(Some("Invalid symbols: must be a non-empty array"));
        return;
      }
      var result, waits, attempts := FetchWithRetry(fetch(StocksUrl(symbols.value)), 3, 1000);
      if result.Err? {
        Fail(result.error);
        return;
      }
      if !result.value.StockArray? {
        Fail(Some("Invalid response format: expected array"));
        return;
      }
      var stockMap := BuildStockMap(result.value.items);
      if |stockMap| == 0 {
        Fail(Some("No valid stock data received"));
        return;
      }
      stocks := stockMap;
      error := None;
      retryCount := 0;
      loading := false;
    }

    /** The `catch` block: the error is recorded and the failure counted; the fallback
        data is shown only when nothing is, which `Valid` rules out for the hook. */
    method Fail(message: Option<string>)
      modifies this
      ensures Valid() && !loading
      ensures old(|stocks|) > 0 ==> stocks == old(stocks)
      ensures old(|stocks|) == 0 ==> stocks == FALLBACK_DATA
      ensures retryCount == old(retryCount) + 1
      ensures error == Some(message.GetOr("undefined"))
    {
      error := Some(message.GetOr("undefined"));
      retryCount := retryCount + 1;
      if |stocks| == 0 {
        stocks := FALLBACK_DATA;
        assert "AAPL" in stocks;
      }
      loading := false;
    }
  }

  /** What a run of `fetchStocks` makes of a non-empty symbol list: the new map, or the
      error message. */
  function StocksOutcome(symbols: seq<string>, fetch: string -> nat -> Attempt<StocksBody>): (r: Result<map<string, Stock>, string>)
    ensures r.Ok? ==> |r.value| > 0
  {
    var run := RetryFrom(fetch(StocksUrl(symbols)), 3, 1000, 0, None);
    if run.result.Err? then Err(run.result.error.GetOr("undefined"))
    else if !run.result.value.StockArray? then Err("Invalid response format: expected array")
    else
      var m := StockMapOf(run.result.value.items);
      if |m| == 0 then Err("No valid stock data received") else Ok(m)
  }

  // ---------------------------------------------------------------------------
  // useStockHistory
  // ---------------------------------------------------------------------------

  /** The body of `/api/history`: `history` is `None` when it is not an array. */
  datatype HistoryBody = HistoryBody(history: Option<seq<ApiHandlers.Bar>>) | NullBody

  /** The request path for a symbol's history: the symbol is percent-encoded, the range
      is passed as given. */
  function HistoryUrl(symbol: string, range: string): string {
    "/api/history?symbol=" + EncodeURIComponent(symbol) + "&range=" + range
  }

  /** The state of `useStockHistory`. */
  class StockHistory {
    var history: seq<ApiHandlers.Bar>
    var loading: bool
    var error: Option<string>

    constructor ()
      ensures history == [] && loading && error == None
    {
      history := [];
      loading := true;
      error := None;
    }

    /** The effect for `(symbol, range)`. An empty symbol fetches nothing and only clears
        the loading flag; a failed fetch keeps the old history and records the retry
        error, and a reply without a history array keeps it too, with its own message. */
    method Refresh(symbol: string, range: string, fetch: string -> nat -> Attempt<HistoryBody>)
      modifies this
      ensures !loading
      ensures symbol == "" ==> history == old(history) && error == old(error)
      ensures symbol != "" ==>
        var run := RetryFrom(fetch(HistoryUrl(symbol, range)), 3, 1000, 0, None);
        if run.result.Err? then
          history == old(history) && error == Some(run.result.error.GetOr("undefined"))
        else if run.result.value.HistoryBody? && run.result.value.history.Some? then
          history == run.result.value.history.value && error == None
        else
          history == old(history) && error == Some("Invalid history data format")
    {
      if symbol == "" {
        loading := false;
        return;
      }
      loading := true;
      error := None;
      var result, waits, attempts := FetchWithRetry(fetch(HistoryUrl(symbol, range)), 3, 1000);
      if result.Err? {
        error := Some(result.error.GetOr("undefined"));
      } else if !result.value.HistoryBody? || result.value.history.None? {
        error := Some("Invalid history data format");
      } else {
        history := result.value.history.value;
      }
      loading := false;
    }
  }
}
