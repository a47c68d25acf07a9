/**
 * News collection (`src/data/news_fetcher.py`): the entries of three RSS
 * feeds are shaped into news items, deduplicated by title (the first one
 * collected wins), ordered newest first by their `published` text and cut
 * to `max_items`. Feed parsing is the parameter `feeds`, from URL to the
 * parsed entries or `Err` when parsing raised.
 */
module NewsFetcher {
  import opened Base
  import Text
  import Clock

  /** A parsed feed entry: the fields read, each possibly absent. */
  datatype FeedEntry = FeedEntry(title: Option<string>, link: Option<string>, summary: Option<string>,
                                 publishedParsed: Option<Clock.DateTime>)

  /** One news item as the fetcher returns it. */
  datatype NewsItem = NewsItem(title: string, link: string, source: string, published: string, summary: string)

  /** `NEWS_SOURCES`: source name and feed URL, in iteration order. */
  const NewsSources: seq<(string, string)> := [
    ("google_stock", "https://news.google.com/rss/search?q=주식+코스피&hl=ko&gl=KR&ceid=KR:ko"),
    ("google_economy", "https://news.google.com/rss/search?q=경제+증시&hl=ko&gl=KR&ceid=KR:ko"),
    ("hankyung", "https://www.hankyung.com/feed/stock")
  ]

  /** At most this many entries are taken from one feed. */
  const MaxPerSource := 10

  /** Summaries are cut to this many characters. */
  const SummaryLength := 200

  /**
   * The `published` text: the ISO form of the parsed time, or "" when the
   * entry has none or the time is out of range for `datetime`.
   */
  function Published(e: FeedEntry): (p: string)
    ensures e.publishedParsed.Some? && e.publishedParsed.value.Valid() ==> p == Clock.IsoString(e.publishedParsed.value)
    ensures !(e.publishedParsed.Some? && e.publishedParsed.value.Valid()) ==> p == ""
  {
    match e.publishedParsed
    case None => ""
    case Some(dt) => if dt.Valid() then Clock.IsoString(dt) else ""
  }

  /** The item `_fetch_from_rss` builds from one entry. */
  function Shaped(e: FeedEntry, source: string): (n: NewsItem)
    ensures n.title == e.title.GetOr("") && n.link == e.link.GetOr("") && n.source == source
    ensures n.published == Published(e)
    ensures n.summary <= e.summary.GetOr("") && |n.summary| == Min(SummaryLength, |e.summary.GetOr("")|)
  {
    NewsItem(e.title.GetOr(""), e.link.GetOr(""), source, Published(e), SliceTo(e.summary.GetOr(""), SummaryLength))
  }

  /** The items of one feed: the first ten entries, shaped. */
  function RssItems(entries: seq<FeedEntry>, source: string): (items: seq<NewsItem>)
    ensures |items| == Min(MaxPerSource, |entries|)
    ensures forall i :: 0 <= i < |items| ==> items[i] == Shaped(entries[i], source)
  {
    var top := SliceTo(entries, MaxPerSource);
    seq(|top|, i requires 0 <= i < |top| => Shaped(top[i], source))
  }

  /** `_fetch_from_rss`: the loop over the first ten entries. */
  method FetchFromRss(entries: seq<FeedEntry>, source: string) returns (items: seq<NewsItem>)
    ensures items == RssItems(entries, source)
    ensures |items| <= MaxPerSource
    ensures forall n :: n in items ==> n.source == source && |n.summary| <= SummaryLength
  {
    var top := SliceTo(entries, MaxPerSource);
    items := [];
    var k := 0;
    while k < |top|
      invariant 0 <= k <= |top|
      invariant |items| == k
      invariant forall i :: 0 <= i < k ==> items[i] == Shaped(top[i], source)
    {
      items := items + [Shaped(top[k], source)];
      k := k + 1;
    }
  }

  /** The items collected from `sources`, in order; a feed that raised contributes nothing. */
  function Collected(sources: seq<(string, string)>, feeds: string -> Result<seq<FeedEntry>>): (all: seq<NewsItem>)
    ensures |all| <= MaxPerSource * |sources|
    decreases |sources|
  {
    if sources == [] then []
    else
      var last := sources[|sources| - 1];
      var init := Collected(sources[..|sources| - 1], feeds);
      match feeds(last.1)
      case Err(_) => init
      case Ok(entries) => init + RssItems(entries, last.0)
  }

  /** A feed that raised is skipped; the items of every other feed are still collected, at their place. */
  lemma {:induction false} CollectedSkipsFailures(sources: seq<(string, string)>, feeds: string -> Result<seq<FeedEntry>>, k: nat)
    requires k < |sources| && feeds(sources[k].1).Ok?
    ensures forall n :: n in RssItems(feeds(sources[k].1).value, sources[k].0) ==> n in Collected(sources, feeds)
    decreases |sources|
  {
    if k < |sources| - 1 {
      CollectedSkipsFailures(sources[..|sources| - 1], feeds, k);
      assert sources[..|sources| - 1][k] == sources[k];
    }
  }

  /** The titles of `s`. */
  function Titles(s: seq<NewsItem>): (t: set<string>)
    ensures forall x :: x in t <==> exists i :: 0 <= i < |s| && s[i].title == x
  {
    set i | 0 <= i < |s| :: s[i].title
  }

  /** Appending an item adds its title. */
  lemma TitlesSnoc(s: seq<NewsItem>, x: NewsItem)
    ensures Titles(s + [x]) == Titles(s) + {x.title}
  {
    var t := s + [x];
    forall y | y in Titles(t)
      ensures y in Titles(s) + {x.title}
    {
      var i :| 0 <= i < |t| && t[i].title == y;
      if i < |s| {
        assert s[i] == t[i];
      }
    }
    forall y | y in Titles(s)
      ensures y in Titles(t)
    {
      var i :| 0 <= i < |s| && s[i].title == y;
      assert t[i] == s[i];
    }
    assert t[|s|] == x;
  }

  /** No two items share a title. */
  predicate DistinctTitles(s: seq<NewsItem>) {
    forall i, j :: 0 <= i < j < |s| ==> s[i].title != s[j].title
  }

  /** The deduplication loop: an item is kept when no earlier kept item has its title. */
  function Dedupe(s: seq<NewsItem>): (r: seq<NewsItem>)
    ensures |r| <= |s|
    ensures DistinctTitles(r)
    ensures forall x :: x in r ==> x in s
    ensures Titles(r) == Titles(s)
    decreases |s|
  {
    if s == [] then []
    else
      var init := s[..|s| - 1];
      var last := s[|s| - 1];
      var d := Dedupe(init);
      assert forall x :: x in init ==> x in s;
      assert s == init + [last];
      TitlesSnoc(init, last);
      TitlesSnoc(d, last);
      if last.title in Titles(d) then d else d + [last]
  }

  /** The item kept for a title is the first one collected with that title. */
  lemma {:induction false} DedupeKeepsFirst(s: seq<NewsItem>, i: nat)
    requires i < |s| && forall j :: 0 <= j < i ==> s[j].title != s[i].title
    ensures s[i] in Dedupe(s)
    decreases |s|
  {
    var init := s[..|s| - 1];
    if i < |s| - 1 {
      DedupeKeepsFirst(init, i);
    } else {
      assert s[i].title !in Titles(init);
    }
  }

  /** `s` is ordered newest first by `published` text. */
  predicate NewestFirst(s: seq<NewsItem>) {
    forall i, j :: 0 <= i < j < |s| ==> Text.LexLe(s[j].published, s[i].published)
  }

  /** Inserts `x` after every item published no earlier than it. */
  function InsertByPublished(s: seq<NewsItem>, x: NewsItem): (r: seq<NewsItem>)
    ensures multiset(r) == multiset(s) + multiset{x}
    ensures |r| == |s| + 1
    ensures forall y :: y in r ==> y in s || y == x
  {
    if s == [] then [x]
    else if Text.LexLe(x.published, s[0].published) then
      assert s == [s[0]] + s[1..];
      [s[0]] + InsertByPublished(s[1..], x)
    else [x] + s
  }

  lemma {:induction false} InsertNewestFirst(s: seq<NewsItem>, x: NewsItem)
    requires NewestFirst(s)
    ensures NewestFirst(InsertByPublished(s, x))
  {
    if s != [] {
      if Text.LexLe(x.published, s[0].published) {
        InsertNewestFirst(s[1..], x);
        var rest := InsertByPublished(s[1..], x);
        assert InsertByPublished(s, x) == [s[0]] + rest;
        forall j | 0 <= j < |rest|
          ensures Text.LexLe(rest[j].published, s[0].published)
        {
          assert rest[j] in rest;
        }
      } else {
        Text.LexLeTotal(x.published, s[0].published);
        forall j | 0 < j < |s|
          ensures Text.LexLe(s[j].published, x.published)
        {
          Text.LexLeTransitive(s[j].published, s[0].published, x.published);
        }
      }
    }
  }

  lemma {:induction false} InsertDistinctTitles(s: seq<NewsItem>, x: NewsItem)
    requires DistinctTitles(s) && x.title !in Titles(s)
    ensures DistinctTitles(InsertByPublished(s, x))
  {
    if s != [] && Text.LexLe(x.published, s[0].published) {
      assert Titles(s[1..]) <= Titles(s);
      InsertDistinctTitles(s[1..], x);
      var rest := InsertByPublished(s[1..], x);
      assert InsertByPublished(s, x) == [s[0]] + rest;
      forall j | 0 <= j < |rest|
        ensures s[0].title != rest[j].title
      {
        assert rest[j] in rest;
        if rest[j] != x {
          var k :| 0 <= k < |s[1..]| && s[1..][k] == rest[j];
          assert s[k + 1] == rest[j];
        }
      }
    }
  }

  /** `sorted(news, key=published, reverse=True)`, stable: items published at the same time keep their order. */
  function SortByPublished(s: seq<NewsItem>): (r: seq<NewsItem>)
    ensures multiset(r) == multiset(s)
    ensures forall y :: y in r ==> y in s
    ensures NewestFirst(r)
    decreases |s|
  {
    if s == [] then []
    else
      var init := s[..|s| - 1];
      var last := s[|s| - 1];
      assert s == init + [last];
      var sorted := SortByPublished(init);
      InsertNewestFirst(sorted, last);
      InsertByPublished(sorted, last)
  }

  /** Sorting does not bring two items of one title together: it only reorders. */
  lemma {:induction false} SortKeepsDistinctTitles(s: seq<NewsItem>)
    requires DistinctTitles(s)
    ensures DistinctTitles(SortByPublished(s))
    decreases |s|
  {
    if s != [] {
      var init := s[..|s| - 1];
      var last := s[|s| - 1];
      var sorted := SortByPublished(init);
      SortKeepsDistinctTitles(init);
      forall k | 0 <= k < |sorted|
        ensures sorted[k].title != last.title
      {
        assert sorted[k] in init;
        var m :| 0 <= m < |init| && init[m] == sorted[k];
        assert s[m] == sorted[k];
      }
      InsertDistinctTitles(sorted, last);
    }
  }

  /** The collection loop of `fetch_news`: each source in turn, a source that raised skipped. */
  method CollectAll(feeds: string -> Result<seq<FeedEntry>>) returns (all: seq<NewsItem>)
    ensures all == Collected(NewsSources, feeds)
  {
    all := [];
    var k := 0;
    while k < |NewsSources|
      invariant 0 <= k <= |NewsSources|
      invariant all == Collected(NewsSources[..k], feeds)
    {
      assert NewsSources[..k + 1][..k] == NewsSources[..k];
      var (name, url) := NewsSources[k];
      var feed := feeds(url);
      if feed.Ok? {
        var items := FetchFromRss(feed.value, name);
        all := all + items;
      }
      k := k + 1;
    }
    assert NewsSources[..k] == NewsSources;
  }

  /** The deduplication loop of `fetch_news`, with the set of titles seen so far. */
  method DedupeByTitle(all: seq<NewsItem>) returns (unique: seq<NewsItem>)
    ensures unique == Dedupe(all)
  {
    var seen: set<string> := {};
    unique := [];
    var j := 0;
    while j < |all|
      invariant 0 <= j <= |all|
      invariant unique == Dedupe(all[..j])
      invariant seen == Titles(unique)
    {
      assert all[..j + 1][..j] == all[..j];
      if all[j].title !in seen {
        TitlesSnoc(unique, all[j]);
        seen := seen + {all[j].title};
        unique := unique + [all[j]];
      }
      j := j + 1;
    }
    assert all[..j] == all;
  }

  /**
   * `fetch_news(max_items)`: collection from every source, the
   * deduplication loop, then the sort and the cut.
   */
  method FetchNews(maxItems: int, feeds: string -> Result<seq<FeedEntry>>) returns (news: seq<NewsItem>)
    ensures news == SliceTo(SortByPublished(Dedupe(Collected(NewsSources, feeds))), maxItems)
    ensures DistinctTitles(news) && NewestFirst(news)
    ensures maxItems >= 0 ==> |news| <= maxItems
    ensures forall n :: n in news ==> n in Collected(NewsSources, feeds)
  {
    var all := CollectAll(feeds);
    var unique := DedupeByTitle(all);
    var sorted := SortByPublished(unique);
    SortKeepsDistinctTitles(unique);
    news := SliceTo(sorted, maxItems);
    forall n | n in news
      ensures n in all
    {
      assert n in sorted;
    }
  }

  const NewsSearchBase := "https://news.google.com/rss/search?q="
  const NewsSearchLocale := "&hl=ko&gl=KR&ceid=KR:ko"

  /**
   * The search URL of `search_stock_news`: the name, unescaped, between
   * the Google News search address and the Korean locale parameters, so
   * the name can be read back from the URL.
   */
  function StockNewsUrl(stockName: string): (u: string)
    ensures |u| == |NewsSearchBase| + |stockName| + |NewsSearchLocale|
    ensures u[..|NewsSearchBase|] == NewsSearchBase
    ensures u[|NewsSearchBase|..|NewsSearchBase| + |stockName|] == stockName
    ensures u[|NewsSearchBase| + |stockName|..] == NewsSearchLocale
  {
    NewsSearchBase + stockName + NewsSearchLocale
  }

  /** `search_stock_news`: the first `max_items` items of the name's search feed, or none when parsing raised. */
  function SearchStockNews(stockName: string, maxItems: int, feeds: string -> Result<seq<FeedEntry>>): (news: seq<NewsItem>)
    ensures feeds(StockNewsUrl(stockName)).Err? ==> news == []
    ensures feeds(StockNewsUrl(stockName)).Ok? ==>
              news == SliceTo(RssItems(feeds(StockNewsUrl(stockName)).value, "google_" + stockName), maxItems)
    ensures forall n :: n in news ==> n.source == "google_" + stockName
  {
    match feeds(StockNewsUrl(stockName))
    case Err(_) => []
    case Ok(entries) => SliceTo(RssItems(entries, "google_" + stockName), maxItems)
  }
}
