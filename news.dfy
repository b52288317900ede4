// The terminal's news widget: relative publication times, the news URL and the
// widget's search/category state.
module News {
  import opened Common
  import opened Strs

  // ---------------------------------------------------------------------------
  // Relative publication time
  // ---------------------------------------------------------------------------

  /** Whole minutes, hours and days in `diff` milliseconds (`Math.floor`). */
  function Minutes(diff: real): int { (diff / 60000.0).Floor }
  function Hours(diff: real): int { (diff / 3600000.0).Floor }
  function Days(diff: real): int { (diff / 86400000.0).Floor }

  /** `formatTimeAgo`: `date` is the parsed publication time (`None` when the string does
      not parse, where every comparison with `NaN` fails); `localeDate` stands for
      `toLocaleDateString`. */
  function FormatTimeAgo(date: Option<real>, now: real, localeDate: real -> string): string {
    if date.None? then "Invalid Date"
    else
      var diff := now - date.value;
      if Minutes(diff) < 1 then "Just now"
      else if Minutes(diff) < 60 then NatToString(Minutes(diff)) + "m ago"
      else if Hours(diff) < 24 then NatToString(Hours(diff)) + "h ago"
      else if Days(diff) < 7 then NatToString(Days(diff)) + "d ago"
      else localeDate(date.value)
  }

  /** The three floors nest: whole hours are whole minutes over 60, whole days are whole
      hours over 24. */
  lemma UnitsNest(diff: real)
    ensures Hours(diff) == Minutes(diff) / 60
    ensures Days(diff) == Hours(diff) / 24
  {
    FloorDiv60(diff / 60000.0);
    assert diff / 60000.0 / 60.0 == diff / 3600000.0;
    FloorDiv24(diff / 3600000.0);
    assert diff / 3600000.0 / 24.0 == diff / 86400000.0;
  }

  /** `⌊x / 60⌋ == ⌊x⌋ / 60` (Euclidean division on `int`). */
  lemma FloorDiv60(x: real)
    ensures (x / 60.0).Floor == x.Floor / 60
  {
    var q := x.Floor / 60;
    assert 60 * q <= x.Floor < 60 * q + 60;
    assert q as real <= x / 60.0 < q as real + 1.0;
  }

  /** `⌊x / 24⌋ == ⌊x⌋ / 24`. */
  lemma FloorDiv24(x: real)
    ensures (x / 24.0).Floor == x.Floor / 24
  {
    var q := x.Floor / 24;
    assert 24 * q <= x.Floor < 24 * q + 24;
    assert q as real <= x / 24.0 < q as real + 1.0;
  }

  /** A count followed by a five-letter unit reads back as that count. */
  lemma CountReadsBack(n: nat, unit: string)
    requires |unit| == 5
    ensures var text := NatToString(n) + unit;
      text[|text| - 5..] == unit && ParseInt(text[..|text| - 5]) == Some(n)
  {
    var text := NatToString(n) + unit;
    assert text[..|text| - 5] == NatToString(n);
    ParseIntOfNatToString(n);
  }

  /** Under a minute (a publication time in the future included) the label is
      `Just now`; from a week on it is the local date. */
  lemma TimeAgoEnds(date: real, now: real, localeDate: real -> string)
    ensures now - date < 60000.0 ==> FormatTimeAgo(Some(date), now, localeDate) == "Just now"
    ensures now - date >= 604800000.0 ==> FormatTimeAgo(Some(date), now, localeDate) == localeDate(date)
  {
    UnitsNest(now - date);
  }

  /** From one minute to under an hour the label is `<m>m ago` with `m` between 1 and 59,
      and `m` reads back. */
  lemma TimeAgoMinutes(date: real, now: real, localeDate: real -> string)
    requires 60000.0 <= now - date < 3600000.0
    ensures var text := FormatTimeAgo(Some(date), now, localeDate);
      1 <= Minutes(now - date) <= 59 && text[|text| - 5..] == "m ago"
      && ParseInt(text[..|text| - 5]) == Some(Minutes(now - date))
  {
    var m := Minutes(now - date);
    assert 1 <= m <= 59;
    assert FormatTimeAgo(Some(date), now, localeDate) == NatToString(m) + "m ago";
    CountReadsBack(m, "m ago");
  }

  /** From one hour to under a day: `<h>h ago` with `h` between 1 and 23. */
  lemma TimeAgoHours(date: real, now: real, localeDate: real -> string)
    requires 3600000.0 <= now - date < 86400000.0
    ensures var text := FormatTimeAgo(Some(date), now, localeDate);
      1 <= Hours(now - date) <= 23 && text[|text| - 5..] == "h ago"
      && ParseInt(text[..|text| - 5]) == Some(Hours(now - date))
  {
    var h := Hours(now - date);
    UnitsNest(now - date);
    assert 60 <= Minutes(now - date) && 1 <= h <= 23;
    assert FormatTimeAgo(Some(date), now, localeDate) == NatToString(h) + "h ago";
    CountReadsBack(h, "h ago");
  }

  /** From one day to under a week: `<d>d ago` with `d` between 1 and 6. */
  lemma TimeAgoDays(date: real, now: real, localeDate: real -> string)
    requires 86400000.0 <= now - date < 604800000.0
    ensures var text := FormatTimeAgo(Some(date), now, localeDate);
      1 <= Days(now - date) <= 6 && text[|text| - 5..] == "d ago"
      && ParseInt(text[..|text| - 5]) == Some(Days(now - date))
  {
    var d := Days(now - date);
    UnitsNest(now - date);
    assert 60 <= Minutes(now - date) && 24 <= Hours(now - date) && 1 <= d <= 6;
    assert FormatTimeAgo(Some(date), now, localeDate) == NatToString(d) + "d ago";
    CountReadsBack(d, "d ago");
  }

  // ---------------------------------------------------------------------------
  // The news URL
  // ---------------------------------------------------------------------------

  const NEWS_CATEGORIES: seq<string> := ["general", "business", "technology", "science"]
  const NEWS_BASE := "/api/news?pageSize=8"

  /** The URL `fetchNews(cat, query)` requests: a non-empty query searches, an empty one
      asks for the category. */
  function NewsUrl(cat: string, query: string): (url: string)
    ensures |url| > |NEWS_BASE| && url[..|NEWS_BASE|] == NEWS_BASE
  {
    if query != "" then NEWS_BASE + "&type=search" + "&q=" + EncodeURIComponent(query)
    else NEWS_BASE + "&category=" + cat
  }

  /** A search URL's `&`-separated parameters: `pageSize=8`, `type=search` and the
      encoded query, which cannot break the parameter list. */
  lemma SearchUrlParams(cat: string, query: string)
    requires query != ""
    ensures Split(NewsUrl(cat, query), '&') == [NEWS_BASE, "type=search", "q=" + EncodeURIComponent(query)]
  {
    var q := "q=" + EncodeURIComponent(query);
    QueryParamSafe(query);
    SearchUrlJoin(cat, query);
    SplitJoin([NEWS_BASE, "type=search", q], '&');
  }

  /** The encoded query parameter holds no `&`. */
  lemma QueryParamSafe(query: string)
    ensures '&' !in "q=" + EncodeURIComponent(query)
  {
    var e := EncodeURIComponent(query);
    var q := "q=" + e;
    EncodedIsSafe(query);
    forall k | 0 <= k < |q| ensures q[k] != '&' {
      if k >= 2 { assert q[k] == e[k - 2]; }
    }
  }

  /** A search URL is its three parameters joined by `&`. */
  lemma SearchUrlJoin(cat: string, query: string)
    requires query != ""
    ensures Join([NEWS_BASE, "type=search", "q=" + EncodeURIComponent(query)], '&') == NewsUrl(cat, query)
  {
    var e := EncodeURIComponent(query);
    JoinThree(NEWS_BASE, "type=search", "q=" + e, '&');
    assert "&type=search" == "&" + "type=search";
    assert "&q=" == "&" + "q=";
    Regroup(NEWS_BASE, "&type=search", "&q=", "type=search", "q=", e);
  }

  lemma JoinThree(a: string, b: string, c: string, sep: char)
    ensures Join([a, b, c], sep) == a + [sep] + b + [sep] + c
  {
    assert [a, b, c][1..] == [b, c];
    assert [b, c][1..] == [c];
    assert Join([c], sep) == c;
    assert Join([b, c], sep) == b + [sep] + c;
    assert Join([a, b, c], sep) == a + [sep] + (b + [sep] + c);
  }

  lemma Regroup(a: string, p: string, q: string, b: string, c: string, e: string)
    requires p == "&" + b && q == "&" + c
    ensures a + p + q + e == a + "&" + b + "&" + (c + e)
  {
  }

  /** A category URL's parameters: `pageSize=8` and the category, for a category without
      `&` (the category is not encoded). */
  lemma CategoryUrlParams(cat: string)
    requires '&' !in cat
    ensures Split(NewsUrl(cat, ""), '&') == [NEWS_BASE, "category=" + cat]
  {
    var parts := [NEWS_BASE, "category=" + cat];
    assert '&' !in "category=" + cat by {
      forall k | 0 <= k < |"category=" + cat| ensures ("category=" + cat)[k] != '&' {
        if k >= 9 { assert ("category=" + cat)[k] == cat[k - 9]; }
      }
    }
    assert '&' !in NEWS_BASE;
    assert Join(parts[1..], '&') == "category=" + cat;
    assert NewsUrl(cat, "") == NEWS_BASE + "&" + ("category=" + cat);
    SplitJoin(parts, '&');
  }

  /** The categories offered by the widget never need encoding in the URL. */
  lemma CategoryUrls(i: nat)
    requires i < |NEWS_CATEGORIES|
    ensures Split(NewsUrl(NEWS_CATEGORIES[i], ""), '&') == [NEWS_BASE, "category=" + NEWS_CATEGORIES[i]]
  {
    CategoryUrlParams(NEWS_CATEGORIES[i]);
  }

  // ---------------------------------------------------------------------------
  // Fetching
  // ---------------------------------------------------------------------------

  datatype Article = Article(url: string, urlToImage: Option<string>, title: string, source: string,
                             publishedAt: string)

  /** What a request yields: a rejection or a body that does not parse (`Threw`, with
      the error's message), or the parsed body. */
  datatype NewsReply =
    | Threw(message: string)
    | Body(error: Option<string>, articles: Option<seq<Article>>)

  /** The articles a reply gives (`data.articles || []`), or the error message shown
      (`data.error` when truthy, else the thrown message, else the default). */
  function NewsOutcome(reply: NewsReply): (r: Result<seq<Article>, string>)
    ensures r.Err? ==> r.error != ""
    ensures r.Err? <==> reply.Threw? || (reply.error.Some? && reply.error.value != "")
    ensures reply.Body? && r.Ok? ==> r.value == reply.articles.GetOr([])
  {
    if reply.Threw? then Err(if reply.message != "" then reply.message else "Failed to fetch news")
    else if reply.error.Some? && reply.error.value != "" then Err(reply.error.value)
    else Ok(reply.articles.GetOr([]))
  }

  /** The widget's state. */
  class NewsWidget {
    var articles: seq<Article>
    var loading: bool
    var error: Option<string>
    var category: string
    var collapsed: bool
    var searchQuery: string
    var isSearching: bool

    /** An error always comes with no articles and a non-empty message. */
    predicate Valid()
      reads this
    {
      error.Some? ==> articles == [] && error.value != ""
    }

    /** The state after a fetch that got `reply`. */
    predicate Shows(reply: NewsReply)
      reads this
    {
      match NewsOutcome(reply)
      case Ok(list) => articles == list && error.None?
      case Err(message) => articles == [] && error == Some(message)
    }

    /** Mounting: the initial state, then the effect's fetch of the category when the
        widget starts expanded. */
    constructor(initialCollapsed: bool, fetch: string -> NewsReply)
      ensures Valid()
      ensures category == "general" && collapsed == initialCollapsed && searchQuery == "" && !isSearching
      ensures !loading
      ensures initialCollapsed ==> articles == [] && error.None?
      ensures !initialCollapsed ==> Shows(fetch(NewsUrl("general", "")))
    {
      articles := [];
      loading := false;
      error := None;
      category := "general";
      collapsed := initialCollapsed;
      searchQuery := "";
      isSearching := false;
      new;
      if !initialCollapsed {
        var _ := FetchNews("general", "", fetch);
      }
    }

    /** `fetchNews(cat, query)`: requests `NewsUrl(cat, query)` and shows its articles or
        its error; `loading` is back to false when it settles. */
    method FetchNews(cat: string, query: string, fetch: string -> NewsReply) returns (url: string)
      modifies this
      ensures url == NewsUrl(cat, query)
      ensures Shows(fetch(url)) && Valid() && !loading
      ensures category == old(category) && collapsed == old(collapsed)
      ensures searchQuery == old(searchQuery) && isSearching == old(isSearching)
    {
      loading := true;
      error := None;
      url := "/api/news?pageSize=8";
      if query != "" {
        url := url + "&type=search" + "&q=" + EncodeURIComponent(query);
      } else {
        url := url + "&category=" + cat;
      }
      var outcome := NewsOutcome(fetch(url));
      if outcome.Ok? {
        articles := outcome.value;
      } else {
        error := Some(outcome.error);
        articles := [];
      }
      loading := false;
    }

    /** Typing in the search box. */
    method SetSearchQuery(q: string)
      modifies this
      ensures searchQuery == q
      ensures articles == old(articles) && error == old(error) && loading == old(loading)
      ensures category == old(category) && collapsed == old(collapsed) && isSearching == old(isSearching)
    {
      searchQuery := q;
    }

    /** `handleCategoryChange(cat)`: leaves search mode and fetches the category. When
        the widget is expanded and the category really changes, the effect that watches
        the category fetches the same URL a second time; `urls` lists the requests. */
    method HandleCategoryChange(cat: string, fetch: string -> NewsReply) returns (urls: seq<string>)
      modifies this
      ensures category == cat && searchQuery == "" && !isSearching && collapsed == old(collapsed)
      ensures urls == if !collapsed && cat != old(category) then [NewsUrl(cat, ""), NewsUrl(cat, "")]
                      else [NewsUrl(cat, "")]
      ensures Shows(fetch(NewsUrl(cat, ""))) && Valid() && !loading
    {
      var changed := cat != category;
      category := cat;
      isSearching := false;
      searchQuery := "";
      var url := FetchNews(cat, "", fetch);
      urls := [url];
      if !collapsed && changed {
        url := FetchNews(category, "", fetch);
        urls := urls + [url];
      }
    }

    /** `handleSearch`: searches for the trimmed query when it is not blank, and does
        nothing at all otherwise. */
    method HandleSearch(fetch: string -> NewsReply) returns (urls: seq<string>)
      modifies this
      ensures category == old(category) && collapsed == old(collapsed) && searchQuery == old(searchQuery)
      ensures Trim(old(searchQuery)) == "" ==>
        urls == [] && isSearching == old(isSearching)
        && articles == old(articles) && error == old(error) && loading == old(loading)
      ensures Trim(old(searchQuery)) != "" ==>
        urls == [NewsUrl(category, Trim(searchQuery))] && isSearching
        && Shows(fetch(urls[0])) && Valid() && !loading
    {
      var q := Trim(searchQuery);
      if q != "" {
        isSearching := true;
        var url := FetchNews(category, q, fetch);
        urls := [url];
      } else {
        urls := [];
      }
    }

    /** `clearSearch`: empties the query, leaves search mode and fetches the category. */
    method ClearSearch(fetch: string -> NewsReply) returns (url: string)
      modifies this
      ensures searchQuery == "" && !isSearching && category == old(category) && collapsed == old(collapsed)
      ensures url == NewsUrl(category, "") && Shows(fetch(url)) && Valid() && !loading
    {
      searchQuery := "";
      isSearching := false;
      url := FetchNews(category, "", fetch);
    }

    /** The refresh button: repeats the search with the query as typed while searching,
        the category otherwise. */
    method Refresh(fetch: string -> NewsReply) returns (url: string)
      modifies this
      ensures category == old(category) && collapsed == old(collapsed)
      ensures searchQuery == old(searchQuery) && isSearching == old(isSearching)
      ensures url == NewsUrl(category, if isSearching then searchQuery else "")
      ensures Shows(fetch(url)) && Valid() && !loading
    {
      url := FetchNews(category, if isSearching then searchQuery else "", fetch);
    }

    /** Clicking the header: toggles `collapsed`; expanding fetches the category. */
    method Toggle(fetch: string -> NewsReply) returns (urls: seq<string>)
      modifies this
      ensures collapsed == !old(collapsed) && category == old(category)
      ensures searchQuery == old(searchQuery) && isSearching == old(isSearching)
      ensures collapsed ==> urls == [] && articles == old(articles) && error == old(error) && loading == old(loading)
      ensures !collapsed ==> urls == [NewsUrl(category, "")] && Shows(fetch(urls[0])) && Valid() && !loading
    {
      collapsed := !collapsed;
      if !collapsed {
        var url := FetchNews(category, "", fetch);
        urls := [url];
      } else {
        urls := [];
      }
    }
  }
}
