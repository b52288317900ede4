// The prediction-markets tracker: the display record of a Manifold market and the
// table of markets it prints.
module PredictionMarkets {
  import opened Common
  import opened Strs
  import opened PyFormat

  /** A market dict as the API returns it; a key that is absent is `None`. */
  datatype RawMarket = RawMarket(
    id: Option<string>, question: Option<string>, probability: Option<real>, isResolved: Option<Json>,
    resolution: Option<Json>, state: Option<Json>, volume: Option<real>, closeTime: Option<real>,
    creatorName: Option<string>)

  /** The display record of a market. */
  datatype Formatted = Formatted(
    id: string, question: string, probability: real, probabilityYes: real, status: string,
    volume: real, volumeStr: string, closeDate: Option<real>, daysUntilClose: string,
    creator: string, isResolved: Json)

  predicate Resolved(m: RawMarket) {
    m.isResolved.Some? && Truthy(m.isResolved.value)
  }

  /** `"${v:,.0f}"` for a positive volume, `"$0"` otherwise. */
  function VolumeStr(volume: real): string {
    if volume > 0.0 then "$" + FormatGrouped(RoundHalfEven(volume)) else "$0"
  }

  /** Whole days from `now` to the close time, both in milliseconds (`timedelta.days`
      rounds down). */
  function DaysLeft(closeTime: real, now: real): int {
    ((closeTime - now) / 86400000.0).Floor
  }

  /** `format_market_data(market)`, with the clock read passed in as `now`. */
  function FormatMarketData(m: RawMarket, now: real): Formatted {
    var probability := if Resolved(m) then (if m.resolution == Some(JStr("YES")) then 100.0 else 0.0)
                       else OrZero(m.probability);
    var status := if Resolved(m) then "Resolved" else if m.state == Some(JStr("CLOSED")) then "Closed" else "Open";
    var volume := OrZero(m.volume);
    Formatted(m.id.GetOr(""), m.question.GetOr(""), probability, probability, status, volume, VolumeStr(volume),
              m.closeTime, if TruthyNum(m.closeTime) then IntToString(DaysLeft(m.closeTime.value, now)) + "d" else "N/A",
              m.creatorName.GetOr("Unknown"), m.isResolved.GetOr(JBool(false)))
  }

  /** Status and probability: a resolved market is `Resolved` at 100 when it resolved
      YES and 0 otherwise; an unresolved one is `Closed` exactly when its state is
      `CLOSED`, else `Open`, with its own probability or 0. The YES probability is the
      probability. */
  lemma StatusAndProbability(m: RawMarket, now: real)
    ensures var f := FormatMarketData(m, now);
      f.probabilityYes == f.probability
      && (Resolved(m) ==> f.status == "Resolved" && (f.probability == 100.0 <==> m.resolution == Some(JStr("YES")))
                          && (f.probability == 0.0 <==> m.resolution != Some(JStr("YES"))))
      && (!Resolved(m) ==> (f.status == "Closed" <==> m.state == Some(JStr("CLOSED")))
                           && (f.status == "Open" <==> m.state != Some(JStr("CLOSED")))
                           && f.probability == OrZero(m.probability))
  {
  }

  /** The volume text is `$0` for no positive volume; otherwise `$` and the volume
      rounded to a whole number, which reads back once the separators are dropped. */
  lemma VolumeText(m: RawMarket, now: real)
    ensures var f := FormatMarketData(m, now);
      (f.volume <= 0.0 ==> f.volumeStr == "$0")
      && (f.volume > 0.0 ==>
            |f.volumeStr| >= 2 && f.volumeStr[0] == '$'
            && ParseInt(RemoveCommas(f.volumeStr[1..])) == Some(RoundHalfEven(f.volume))
            && -0.5 <= RoundHalfEven(f.volume) as real - f.volume <= 0.5)
  {
    var f := FormatMarketData(m, now);
    if f.volume > 0.0 {
      var n := RoundHalfEven(f.volume);
      assert n >= 0;
      assert f.volumeStr[1..] == FormatGrouped(n);
      FormatGroupedReadsBack(n);
      assert |NatToString(n)| >= 1;
    }
  }

  /** `N/A` without a (non-zero) close time; otherwise the whole days left, which read
      back, followed by `d`. */
  lemma DaysText(m: RawMarket, now: real)
    ensures var f := FormatMarketData(m, now);
      (!TruthyNum(m.closeTime) ==> f.daysUntilClose == "N/A")
      && (TruthyNum(m.closeTime) ==>
            f.daysUntilClose[|f.daysUntilClose| - 1] == 'd'
            && ParseInt(f.daysUntilClose[..|f.daysUntilClose| - 1]) == Some(DaysLeft(m.closeTime.value, now)))
  {
    var f := FormatMarketData(m, now);
    if TruthyNum(m.closeTime) {
      var d := DaysLeft(m.closeTime.value, now);
      assert f.daysUntilClose[..|f.daysUntilClose| - 1] == IntToString(d);
      ParseIntOfIntToString(d);
    }
  }

  // ---------------------------------------------------------------------------
  // The table
  // ---------------------------------------------------------------------------

  datatype Color = Green | Red | Yellow

  /** Green above 60, red below 40, yellow in between. */
  function ColorOf(prob: real): (c: Color)
    ensures c == Green <==> prob > 60.0
    ensures c == Red <==> prob < 40.0
    ensures c == Yellow <==> 40.0 <= prob <= 60.0
  {
    if prob > 60.0 then Green else if prob < 40.0 then Red else Yellow
  }

  /** A question over 50 characters is cut to 47 plus `...`, 50 in all. */
  function Truncate(q: string): (r: string)
    ensures |q| <= 50 ==> r == q
    ensures |q| > 50 ==> |r| == 50 && r[..47] == q[..47] && r[47..] == "..."
  {
    if |q| > 50 then q[..47] + "..." else q
  }

  /** `markets[:n]`: a negative `n` counts from the end. */
  function PrefixTo<T>(s: seq<T>, n: int): (r: seq<T>)
    ensures n >= 0 ==> |r| == MinNat(n, |s|)
    ensures n < 0 ==> |r| == (if |s| + n >= 0 then |s| + n else 0)
    ensures r == s[..|r|]
  {
    if n >= 0 then (if n <= |s| then s[..n] else s)
    else if |s| + n >= 0 then s[..|s| + n] else []
  }

  /** One printed row: colour, question, YES probability, status, volume and days. */
  datatype TableRow = TableRow(color: Color, question: string, prob: real, status: string, volume: string,
                               days: string)

  function RowOf(m: RawMarket, now: real): TableRow {
    var f := FormatMarketData(m, now);
    TableRow(ColorOf(f.probabilityYes), Truncate(f.question), f.probabilityYes, f.status, f.volumeStr,
             f.daysUntilClose)
  }

  /** What `display_markets_table` prints: the `No markets found` line, or the rows. */
  datatype Table = NoMarkets | Rows(rows: seq<TableRow>)

  /** `display_markets_table(markets, max_rows)`: the rows of the first `max_rows`
      markets, in order. */
  method DisplayMarketsTable(markets: seq<RawMarket>, maxRows: int, now: real) returns (out: Table)
    ensures markets == [] <==> out == NoMarkets
    ensures out.Rows? ==>
      var shown := PrefixTo(markets, maxRows);
      |out.rows| == |shown| && forall k :: 0 <= k < |shown| ==> out.rows[k] == RowOf(shown[k], now)
  {
    if markets == [] {
      return NoMarkets;
    }
    var shown := PrefixTo(markets, maxRows);
    var rows: seq<TableRow> := [];
    for i := 0 to |shown|
      invariant |rows| == i && forall k :: 0 <= k < i ==> rows[k] == RowOf(shown[k], now)
    {
      var f := FormatMarketData(shown[i], now);
      var prob := f.probabilityYes;
      var color := if prob > 60.0 then Green else if prob < 40.0 then Red else Yellow;
      var question := f.question;
      if |question| > 50 {
        question := question[..47] + "...";
      }
      var row := TableRow(color, question, prob, f.status, f.volumeStr, f.daysUntilClose);
      assert row == RowOf(shown[i], now);
      rows := rows + [row];
    }
    out := Rows(rows);
  }

  /** A resolved market is shown green when it resolved YES and red otherwise. */
  lemma ResolvedColors(m: RawMarket, now: real)
    requires Resolved(m)
    ensures RowOf(m, now).color == (if m.resolution == Some(JStr("YES")) then Green else Red)
  {
  }

  /** With a non-negative limit the table has at most that many rows. */
  lemma TableBound(markets: seq<RawMarket>, maxRows: nat)
    ensures |PrefixTo(markets, maxRows)| <= maxRows
    ensures |markets| <= maxRows ==> PrefixTo(markets, maxRows) == markets
  {
  }

  // ---------------------------------------------------------------------------
  // The tracker
  // ---------------------------------------------------------------------------

  /** What a listing request yields: a request error, or the listed markets. */
  datatype ListingReply = RequestFailed | Listed(items: seq<RawMarket>)

  predicate AllHaveIds(items: seq<RawMarket>) {
    forall k :: 0 <= k < |items| ==> items[k].id.Some?
  }

  /** `{m['id']: m for m in markets}`: a later market with the same id replaces an
      earlier one. */
  function ById(items: seq<RawMarket>): map<string, RawMarket>
    requires AllHaveIds(items)
    decreases |items|
  {
    if items == [] then map[]
    else
      var last := items[|items| - 1];
      var init := items[..|items| - 1];
      assert AllHaveIds(init) by {
        forall k | 0 <= k < |init| ensures init[k].id.Some? { assert init[k] == items[k]; }
      }
      ById(init)[last.id.value := last]
  }

  /** The keys are the ids, and each maps to the last market carrying it. */
  lemma {:induction false} ByIdLast(items: seq<RawMarket>, t: string)
    requires AllHaveIds(items)
    ensures t in ById(items) <==> exists k :: 0 <= k < |items| && items[k].id == Some(t)
    ensures t in ById(items) ==>
      exists k :: 0 <= k < |items| && items[k] == ById(items)[t]
        && items[k].id == Some(t) && forall j :: k < j < |items| ==> items[j].id != Some(t)
    decreases |items|
  {
    if items != [] {
      var init := items[..|items| - 1];
      assert AllHaveIds(init) by {
        forall k | 0 <= k < |init| ensures init[k].id.Some? { assert init[k] == items[k]; }
      }
      ByIdLast(init, t);
      var n := |items| - 1;
      var last := items[n];
      assert ById(items) == ById(init)[last.id.value := last];
      if last.id == Some(t) {
        assert ById(items)[t] == items[n];
      } else {
        assert t in ById(items) <==> t in ById(init);
        if t in ById(items) {
          var k :| 0 <= k < |init| && init[k] == ById(init)[t]
            && init[k].id == Some(t) && forall j :: k < j < |init| ==> init[j].id != Some(t);
          assert items[k] == init[k] == ById(items)[t];
          forall j | k < j < |items| ensures items[j].id != Some(t) {
            if j < n { assert items[j] == init[j]; }
          }
        }
        if exists k :: 0 <= k < |items| && items[k].id == Some(t) {
          var k :| 0 <= k < |items| && items[k].id == Some(t);
          assert k < n && init[k] == items[k];
        }
      }
    }
  }

  class PredictionMarketsTracker {
    var markets: map<string, RawMarket>

    constructor()
      ensures markets == map[]
    {
      markets := map[];
    }

    /** `fetch_markets`: a request error gives `[]` and keeps the stored markets; a
        listing is stored by id and returned, unless a market lacks an id, which raises
        (`raised`) before anything is stored. */
    method FetchMarkets(reply: ListingReply) returns (list: seq<RawMarket>, raised: bool)
      modifies this
      ensures reply.RequestFailed? ==> list == [] && !raised && markets == old(markets)
      ensures reply.Listed? ==> (raised <==> !AllHaveIds(reply.items))
      ensures raised ==> markets == old(markets)
      ensures reply.Listed? && !raised ==> list == reply.items && markets == ById(reply.items)
    {
      if reply.RequestFailed? {
        return [], false;
      }
      var items := reply.items;
      var byId: map<string, RawMarket> := map[];
      for i := 0 to |items|
        invariant AllHaveIds(items[..i])
        invariant byId == ById(items[..i])
      {
        assert items[..i + 1][..i] == items[..i];
        if items[i].id.None? {
          assert !AllHaveIds(items) by { assert items[i].id.None?; }
          return [], true;
        }
        byId := byId[items[i].id.value := items[i]];
        var pre := items[..i + 1];
        assert AllHaveIds(pre) by {
          forall k | 0 <= k < |pre| ensures pre[k].id.Some? {
            if k < i { assert pre[k] == items[..i][k]; }
          }
        }
      }
      assert items[..|items|] == items;
      markets := byId;
      list := items;
      raised := false;
    }
  }
}
