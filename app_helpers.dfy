/** The two pure helpers of the dashboard's market panel: `tldr`, which shortens a
    market question for display, and `filteredMarkets`, the keyword and
    high-probability filter over the prediction-market list. */
module DashboardHelpers {
  import opened Common
  import opened Strs

  // ---------------------------------------------------------------------------
  // tldr
  // ---------------------------------------------------------------------------

  /** `tldr(question, maxLen)`: a question that fits is returned as it is (the empty
      question included); a longer one is cut to `maxLen` characters, then back to its
      last space when that space is past index 20, and `...` is appended. */
  function Tldr(question: string, maxLen: nat): (r: string)
    ensures |question| <= maxLen ==> r == question
    ensures |question| > maxLen ==>
      |r| >= 3 && r[|r| - 3..] == "..." && |r| - 3 <= maxLen && r[..|r| - 3] == question[..|r| - 3]
    ensures |question| > maxLen && |r| - 3 < maxLen ==>
      |r| - 3 > 20 && question[|r| - 3] == ' '
      && forall j :: |r| - 3 < j < maxLen ==> question[j] != ' '
    ensures |question| > maxLen && |r| - 3 == maxLen ==>
      forall j :: 20 < j < maxLen ==> question[j] != ' '
  {
    if |question| == 0 || |question| <= maxLen then question
    else
      var truncated := question[..maxLen];
      var lastSpace := LastIndexOf(truncated, ' ');
      (if lastSpace > 20 then truncated[..lastSpace] else truncated) + "..."
  }

  /** The default display length keeps at most 53 characters. */
  lemma TldrDefaultLength(question: string)
    ensures |Tldr(question, 50)| <= 53
    ensures |Tldr(question, 50)| <= |question| + 3
  {
  }

  // ---------------------------------------------------------------------------
  // filteredMarkets
  // ---------------------------------------------------------------------------

  /** A probability as JavaScript holds it: a number, `null` (a market without outcome
      prices), or a value that is not a number (`undefined`, or `NaN` from `parseFloat`). */
  datatype JsProb = Num(v: real) | Null | NotNumber

  /** `p >= x` in JavaScript: `null` compares as 0 and a non-number is never ordered. */
  predicate JsAtLeast(p: JsProb, x: real) {
    match p
    case Num(v) => v >= x
    case Null => 0.0 >= x
    case NotNumber => false
  }

  /** `p <= x` in JavaScript, with the same conversions. */
  predicate JsAtMost(p: JsProb, x: real) {
    match p
    case Num(v) => v <= x
    case Null => 0.0 <= x
    case NotNumber => false
  }

  /** A prediction market as the panel sees it; a missing text field is the empty
      string (`m.question || ''`). */
  datatype Market = Market(question: string, description: string, category: string, probability: JsProb)

  /** `categoryKeywords[category] || []`. */
  function CategoryKeywords(category: string): seq<string> {
    if category == "politics" then
      ["trump", "biden", "election", "president", "congress", "senate", "republican", "democrat", "vote",
       "governor", "political", "white house", "supreme court", "legislation", "poll"]
    else if category == "crypto" then
      ["bitcoin", "btc", "ethereum", "eth", "crypto", "token", "blockchain", "solana", "xrp", "dogecoin",
       "altcoin", "defi", "nft"]
    else if category == "sports" then
      ["nfl", "nba", "mlb", "nhl", "soccer", "football", "basketball", "baseball", "hockey", "super bowl",
       "championship", "playoffs", "world cup", "olympics", "ufc", "boxing", "tennis", "golf"]
    else if category == "finance" then
      ["stock", "market", "fed", "interest rate", "inflation", "gdp", "recession", "earnings", "s&p", "nasdaq",
       "dow", "treasury", "bond", "ipo", "merger"]
    else if category == "culture" then
      ["oscar", "grammy", "emmy", "movie", "film", "music", "celebrity", "award", "netflix", "spotify", "tiktok",
       "twitter", "elon", "kanye", "taylor swift"]
    else []
  }

  /** The lower-cased text a keyword is searched in: question, description and
      category separated by single spaces. */
  function SearchText(m: Market): string {
    Lower(m.question + " " + m.description + " " + m.category)
  }

  /** `keywords.some(kw => text.includes(kw))`. */
  predicate MatchesAny(m: Market, keywords: seq<string>) {
    exists k :: 0 <= k < |keywords| && Contains(SearchText(m), keywords[k])
  }

  /** `m.probability >= 0.90 || m.probability <= 0.10` as JavaScript evaluates it. */
  predicate HighConviction(m: Market) {
    JsAtLeast(m.probability, 0.90) || JsAtMost(m.probability, 0.10)
  }

  /** The test passes exactly for a numeric probability of at least 0.90 or at most 0.10,
      and for a `null` probability, which compares as 0; `undefined` and `NaN` fail it. */
  lemma HighConvictionIff(m: Market)
    ensures HighConviction(m) <==>
      (m.probability.Num? && (m.probability.v >= 0.90 || m.probability.v <= 0.10)) || m.probability.Null?
    ensures m.probability.NotNumber? ==> !HighConviction(m)
  {
  }

  /** The category test of `filteredMarkets`, as the condition handed to `filter`. */
  function InCategory(category: string): Market -> bool {
    m => MatchesAny(m, CategoryKeywords(category))
  }

  function FilteredMarkets(markets: seq<Market>, category: string, showHighProb: bool): seq<Market> {
    var byCategory := if category != "all" then Filter(markets, InCategory(category)) else markets;
    if showHighProb then Filter(byCategory, HighConviction) else byCategory
  }

  /** Whether `filteredMarkets` keeps a market, stated on its own. */
  predicate Kept(m: Market, category: string, showHighProb: bool) {
    (category == "all" || MatchesAny(m, CategoryKeywords(category))) && (!showHighProb || HighConviction(m))
  }

  /** The filter keeps exactly the markets that match the category (any market for
      `all`) and, with the toggle on, are high-conviction, in their original order. */
  lemma FilteredMarketsKeeps(markets: seq<Market>, category: string, showHighProb: bool)
    ensures FilteredMarkets(markets, category, showHighProb) == Filter(markets, m => Kept(m, category, showHighProb))
  {
    var keep := (m: Market) => Kept(m, category, showHighProb);
    var inCat := InCategory(category);
    var r := FilteredMarkets(markets, category, showHighProb);
    if category == "all" && !showHighProb {
      FilterAll(markets, keep);
      assert r == markets;
    } else if category == "all" {
      FilterExt(markets, HighConviction, keep);
      assert r == Filter(markets, HighConviction);
    } else if !showHighProb {
      FilterExt(markets, inCat, keep);
      assert r == Filter(markets, inCat);
    } else {
      FilterFilter(markets, inCat, HighConviction);
      FilterExt(markets, Both(inCat, HighConviction), keep);
      assert r == Filter(Filter(markets, inCat), HighConviction);
    }
  }

  /** Every kept market contains one of the category's keywords and, with the toggle on,
      passes the conviction test as JavaScript evaluates it (a `null` probability
      included; see `NullMarketKept`). */
  lemma FilteredMarketsSound(markets: seq<Market>, category: string, showHighProb: bool)
    ensures forall m :: m in FilteredMarkets(markets, category, showHighProb) ==>
      m in markets
      && (category != "all" ==> MatchesAny(m, CategoryKeywords(category)))
      && (showHighProb ==> HighConviction(m))
  {
  }

  /** A category without keywords keeps nothing. */
  lemma UnknownCategoryKeepsNothing(markets: seq<Market>, category: string, showHighProb: bool)
    requires category !in {"all", "politics", "crypto", "sports", "finance", "culture"}
    ensures FilteredMarkets(markets, category, showHighProb) == []
  {
    FilterNone(markets, InCategory(category));
  }

  /** `all` without the toggle returns the list unchanged. */
  lemma AllKeepsEverything(markets: seq<Market>)
    ensures FilteredMarkets(markets, "all", false) == markets
  {
  }

  // ---------------------------------------------------------------------------
  // The conviction toggle with a null probability
  // ---------------------------------------------------------------------------

  /** As written, the toggle keeps a market without outcome prices: `null <= 0.10` holds
      in JavaScript, although the panel shows no probability for such a market. */
  lemma NullMarketKept()
    ensures var m := Market("q", "", "", Null);
      FilteredMarkets([m], "all", true) == [m] && !m.probability.Num?
  {
    var m := Market("q", "", "", Null);
    assert HighConviction(m);
    assert [m][1..] == [];
  }

  /** The evidently intended test: a known probability of at least 0.90 or at most 0.10. */
  predicate HighConvictionKnown(m: Market) {
    m.probability.Num? && (m.probability.v >= 0.90 || m.probability.v <= 0.10)
  }

  /** `filteredMarkets` with the intended conviction test. */
  function FilteredMarketsKnown(markets: seq<Market>, category: string, showHighProb: bool): seq<Market> {
    var byCategory := if category != "all" then Filter(markets, InCategory(category)) else markets;
    if showHighProb then Filter(byCategory, HighConvictionKnown) else byCategory
  }

  /** With the intended test every kept market comes from the input, matches the
      category, and with the toggle on has a known probability of at least 0.90 or at
      most 0.10; and where no market has a `null` probability it keeps exactly what the
      code as written keeps. */
  lemma FilteredMarketsKnownSound(markets: seq<Market>, category: string, showHighProb: bool)
    ensures forall m :: m in FilteredMarketsKnown(markets, category, showHighProb) ==>
      m in markets
      && (category != "all" ==> MatchesAny(m, CategoryKeywords(category)))
      && (showHighProb ==> m.probability.Num? && (m.probability.v >= 0.90 || m.probability.v <= 0.10))
    ensures (forall k :: 0 <= k < |markets| ==> !markets[k].probability.Null?) ==>
      FilteredMarketsKnown(markets, category, showHighProb) == FilteredMarkets(markets, category, showHighProb)
  {
    if forall k :: 0 <= k < |markets| ==> !markets[k].probability.Null? {
      var byCategory := if category != "all" then Filter(markets, InCategory(category)) else markets;
      forall k | 0 <= k < |byCategory|
        ensures HighConvictionKnown(byCategory[k]) == HighConviction(byCategory[k])
      {
        assert byCategory[k] in markets;
        HighConvictionIff(byCategory[k]);
      }
      FilterExt(byCategory, HighConvictionKnown, HighConviction);
    }
  }
}
