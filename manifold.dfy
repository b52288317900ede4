// The Manifold markets hook: open markets from the API, reshaped to the dashboard's
// market format, the first 20 kept, ordered by probability.
module Manifold {
  import opened Common
  import opened Sorting

  /** One market as the Manifold API lists it; a missing field is `None`. */
  datatype ApiMarket = ApiMarket(
    id: string, slug: string, question: string, textDescription: Option<string>,
    groupSlugs: Option<seq<string>>, closeTime: Option<real>, isResolved: Option<Json>,
    volume24Hours: Option<real>, volume: Option<real>, totalLiquidity: Option<real>,
    probability: Option<real>, coverImageUrl: Option<string>, creatorUsername: string)

  /** The dashboard's market record. */
  datatype Market = Market(
    id: string, slug: string, question: string, description: string, category: string,
    endDate: Option<string>, volume24h: real, volumeTotal: real, liquidity: real,
    probability: Option<real>, image: Option<string>, url: string, source: string)

  const MAX_MARKETS := 20
  const MANIFOLD_SITE := "https://manifold.markets/"

  /** Kept: `isResolved` is exactly `false` and the close time is after `now`. */
  function IsOpen(now: real): ApiMarket -> bool {
    (m: ApiMarket) => m.isResolved == Some(JBool(false)) && m.closeTime.Some? && m.closeTime.value > now
  }

  /** `m.groupSlugs?.[0] || 'general'`. */
  function CategoryOf(m: ApiMarket): (c: string)
    ensures c != ""
    ensures m.groupSlugs.Some? && |m.groupSlugs.value| > 0 && m.groupSlugs.value[0] != "" ==> c == m.groupSlugs.value[0]
  {
    if m.groupSlugs.Some? && |m.groupSlugs.value| > 0 && m.groupSlugs.value[0] != "" then m.groupSlugs.value[0]
    else "general"
  }

  /** The record a kept market becomes; `iso` stands for `new Date(t).toISOString()`. */
  function ToMarket(m: ApiMarket, iso: real -> string): (r: Market)
    ensures r.id == m.id && r.question == m.question && r.probability == m.probability
    ensures r.category != "" && r.source == "manifold"
    ensures r.volume24h == OrZero(m.volume24Hours) && r.volumeTotal == OrZero(m.volume)
    ensures r.liquidity == OrZero(m.totalLiquidity)
    ensures r.endDate.Some? <==> TruthyNum(m.closeTime)
  {
    Market(m.id, m.slug, m.question, OrDefault(m.textDescription, ""), CategoryOf(m),
           if TruthyNum(m.closeTime) then Some(iso(m.closeTime.value)) else None,
           OrZero(m.volume24Hours), OrZero(m.volume), OrZero(m.totalLiquidity), m.probability,
           m.coverImageUrl, MANIFOLD_SITE + m.creatorUsername + "/" + m.slug, "manifold")
  }

  function MapMarkets(ms: seq<ApiMarket>, iso: real -> string): (r: seq<Market>)
    ensures |r| == |ms|
    ensures forall k :: 0 <= k < |ms| ==> r[k] == ToMarket(ms[k], iso)
  {
    seq(|ms|, k requires 0 <= k < |ms| => ToMarket(ms[k], iso))
  }

  /** `filter → map → slice(0, 20)`. */
  function Transformed(items: seq<ApiMarket>, now: real, iso: real -> string): seq<Market> {
    Take(MapMarkets(Filter(items, IsOpen(now)), iso), MAX_MARKETS)
  }

  /** The sort key: `probability || 0`. */
  function ProbabilityKey(m: Market): real {
    OrZero(m.probability)
  }

  /** The markets the hook publishes: the transformed list sorted by probability, highest
      first. */
  function ManifoldMarkets(items: seq<ApiMarket>, now: real, iso: real -> string): seq<Market> {
    SortDescBy(Transformed(items, now, iso), ProbabilityKey)
  }

  /** At most 20 markets, ordered by probability (a missing one counting as 0), and
      exactly the first 20 open markets in API order, reshaped. */
  lemma ManifoldShape(items: seq<ApiMarket>, now: real, iso: real -> string)
    ensures var r := ManifoldMarkets(items, now, iso);
      |r| == MinNat(|Filter(items, IsOpen(now))|, MAX_MARKETS)
      && DescendingBy(r, ProbabilityKey)
      && multiset(r) == multiset(Transformed(items, now, iso))
  {
    SortDescBySorted(Transformed(items, now, iso), ProbabilityKey);
  }

  /** Every published market comes from an open API market, and says it comes from
      Manifold. */
  lemma ManifoldFromOpen(items: seq<ApiMarket>, now: real, iso: real -> string, k: nat)
    requires k < |ManifoldMarkets(items, now, iso)|
    ensures var r := ManifoldMarkets(items, now, iso);
      r[k].source == "manifold"
      && exists i :: 0 <= i < |items| && IsOpen(now)(items[i]) && r[k] == ToMarket(items[i], iso)
  {
    var r := ManifoldMarkets(items, now, iso);
    var open := Filter(items, IsOpen(now));
    var t := Transformed(items, now, iso);
    ManifoldShape(items, now, iso);
    assert r[k] in multiset(r);
    assert r[k] in t;
    var j :| 0 <= j < |t| && t[j] == r[k];
    assert t[j] == ToMarket(open[j], iso);
    assert open[j] in items;
    var i :| 0 <= i < |items| && items[i] == open[j];
  }

  /** With at most 20 open markets none is dropped: each appears, reshaped. */
  lemma ManifoldKeepsAllOpen(items: seq<ApiMarket>, now: real, iso: real -> string, i: nat)
    requires |Filter(items, IsOpen(now))| <= MAX_MARKETS
    requires i < |items| && IsOpen(now)(items[i])
    ensures ToMarket(items[i], iso) in ManifoldMarkets(items, now, iso)
  {
    var open := Filter(items, IsOpen(now));
    var t := Transformed(items, now, iso);
    assert items[i] in open;
    var j :| 0 <= j < |open| && open[j] == items[i];
    assert t[j] == ToMarket(items[i], iso);
    assert ToMarket(items[i], iso) in multiset(t);
    ManifoldShape(items, now, iso);
    assert ToMarket(items[i], iso) in multiset(ManifoldMarkets(items, now, iso));
  }

  // ---------------------------------------------------------------------------
  // The hook's state
  // ---------------------------------------------------------------------------

  /** What a request yields: a non-OK status, a rejection or unreadable body (with the
      error's message), or the listed markets. */
  datatype ManifoldReply = NotOk | Threw(message: string) | Listed(items: seq<ApiMarket>)

  class ManifoldFeed {
    var markets: seq<Market>
    var loading: bool
    var error: Option<string>

    /** The state before the first fetch settles. */
    constructor()
      ensures markets == [] && loading && error.None?
    {
      markets := [];
      loading := true;
      error := None;
    }

    /** `fetchMarkets`: a listing replaces the markets and clears the error; a failure
        sets the error and keeps the markets already shown. */
    method FetchMarkets(reply: ManifoldReply, now: real, iso: real -> string)
      modifies this
      ensures !loading
      ensures reply.Listed? ==> markets == ManifoldMarkets(reply.items, now, iso) && error.None?
      ensures reply.NotOk? ==> markets == old(markets) && error == Some("Failed to fetch Manifold markets")
      ensures reply.Threw? ==> markets == old(markets) && error == Some(reply.message)
    {
      loading := true;
      match reply {
        case NotOk =>
          error := Some("Failed to fetch Manifold markets");
        case Threw(message) =>
          error := Some(message);
        case Listed(items) =>
          markets := ManifoldMarkets(items, now, iso);
          error := None;
      }
      loading := false;
    }
  }
}
