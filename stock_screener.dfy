/**
 * Stock screening (`src/data/stock_screener.py`): a module-level watchlist
 * of profitable KOSPI companies that callers can extend, the market data
 * built from it (quotes, top gainers and top losers by change rate), and
 * the screen over that data. The KOSPI ticker list (pykrx) and the price
 * lookups are parameters; a lookup that raises is `Err`.
 */
module StockScreener {
  import opened Base

  /** One watchlist entry. */
  datatype WatchEntry = WatchEntry(code: string, name: string, sector: string)

  /** The `output` of a price lookup; a missing field reads as 0. Rates are in hundredths of a percent. */
  datatype PriceOutput = PriceOutput(price: Option<int>, changeRate: Option<int>, volume: Option<int>,
                                     high: Option<int>, low: Option<int>)

  /** One quoted stock of `market_data["stocks"]` (market "KOSPI", profitable). */
  datatype MarketStock = MarketStock(code: string, name: string, sector: string, currentPrice: int,
                                     changeRate: int, volume: int, highPrice: int, lowPrice: int)

  /** `market_data` without its constant `filter` label. */
  datatype MarketData = MarketData(stocks: seq<MarketStock>, topGainers: seq<MarketStock>, topLosers: seq<MarketStock>)

  /** At most this many gainers and losers are reported. */
  const TopCount := 5

  /** The defaults of `screen_stocks`: volume at least 100000, change rate within -5.0 % .. 5.0 %. */
  const DefaultMinVolume := 100000
  const DefaultMinChange := -500
  const DefaultMaxChange := 500

  function W(code: string, name: string, sector: string): WatchEntry { WatchEntry(code, name, sector) }

  /** The initial `KOSPI_WATCHLIST`. */
  const InitialWatchlist: seq<WatchEntry> := [
    W("005930", "삼성전자", "반도체"),
    W("000660", "SK하이닉스", "반도체"),
    W("005380", "현대차", "자동차"),
    W("000270", "기아", "자동차"),
    W("055550", "신한지주", "금융"),
    W("105560", "KB금융", "금융"),
    W("086790", "하나금융지주", "금융"),
    W("096770", "SK이노베이션", "에너지"),
    W("010950", "S-Oil", "에너지"),
    W("005490", "POSCO홀딩스", "철강"),
    W("009540", "HD한국조선해양", "조선"),
    W("017670", "SK텔레콤", "통신"),
    W("030200", "KT", "통신"),
    W("004170", "신세계", "유통"),
    W("000720", "현대건설", "건설"),
    W("042660", "한화오션", "조선")
  ]

  /**
   * The watchlist restricted to the KOSPI tickers, with the whole
   * watchlist as the fallback when the ticker list is empty, the
   * restriction is empty, or the ticker lookup raised.
   */
  function ProfitableStocks(watchlist: seq<WatchEntry>, tickers: Result<seq<string>>): (r: seq<WatchEntry>)
    ensures tickers.Err? ==> r == watchlist
    ensures tickers.Ok? && tickers.value == [] ==> r == watchlist
    ensures (tickers.Ok? && Filter(watchlist, (e: WatchEntry) => e.code in tickers.value) != [])
              ==> r == Filter(watchlist, (e: WatchEntry) => e.code in tickers.value)
    ensures tickers.Ok? && Filter(watchlist, (e: WatchEntry) => e.code in tickers.value) == [] ==> r == watchlist
    ensures forall e :: e in r ==> e in watchlist
    ensures tickers.Ok? && r != watchlist ==> forall e :: e in r ==> e.code in tickers.value
    ensures watchlist != [] ==> r != []
  {
    match tickers
    case Err(_) => watchlist
    case Ok(ts) =>
      if ts == [] then
        FilterNone(watchlist, (e: WatchEntry) => e.code in ts);
        watchlist
      else
        var kept := Filter(watchlist, (e: WatchEntry) => e.code in ts);
        FilterMembers(watchlist, (e: WatchEntry) => e.code in ts);
        if kept == [] then watchlist else kept
  }

  /**
   * The record built from a successful price lookup: the entry's code,
   * name and sector, and 0 for each field the reply left out.
   */
  function Quoted(e: WatchEntry, out: PriceOutput): (m: MarketStock)
    ensures m.code == e.code && m.name == e.name && m.sector == e.sector
    ensures out.price.None? ==> m.currentPrice == 0
    ensures out.changeRate.None? ==> m.changeRate == 0
    ensures out.volume.None? ==> m.volume == 0
    ensures out.changeRate.Some? ==> m.changeRate == out.changeRate.value
    ensures out.volume.Some? ==> m.volume == out.volume.value
    ensures out.price.Some? ==> m.currentPrice == out.price.value
    ensures out.high.None? ==> m.highPrice == 0
    ensures out.low.None? ==> m.lowPrice == 0
    ensures out.high.Some? ==> m.highPrice == out.high.value
    ensures out.low.Some? ==> m.lowPrice == out.low.value
  {
    MarketStock(e.code, e.name, e.sector, out.price.GetOr(0), out.changeRate.GetOr(0),
                out.volume.GetOr(0), out.high.GetOr(0), out.low.GetOr(0))
  }

  /** The quotes the loop of `get_market_data` collects: the entries whose lookup succeeded, in order. */
  function QuotedAll(entries: seq<WatchEntry>, prices: string -> Result<PriceOutput>): (r: seq<MarketStock>)
    ensures |r| <= |entries|
    decreases |entries|
  {
    if entries == [] then []
    else
      var last := entries[|entries| - 1];
      QuotedAll(entries[..|entries| - 1], prices)
        + (if prices(last.code).Ok? then [Quoted(last, prices(last.code).value)] else [])
  }

  /** One more entry extends the quotes by that entry's quote when its lookup succeeds. */
  lemma QuotedStep(entries: seq<WatchEntry>, k: nat, prices: string -> Result<PriceOutput>)
    requires k < |entries|
    ensures QuotedAll(entries[..k + 1], prices)
            == QuotedAll(entries[..k], prices)
               + (if prices(entries[k].code).Ok? then [Quoted(entries[k], prices(entries[k].code).value)] else [])
  {
    assert entries[..k + 1][..k] == entries[..k];
  }

  /** Every quote is one entry's quote, and every entry whose lookup succeeded has its quote in the list. */
  lemma {:induction false} QuotedMembers(entries: seq<WatchEntry>, prices: string -> Result<PriceOutput>)
    ensures forall m :: m in QuotedAll(entries, prices) ==>
              exists i :: 0 <= i < |entries| && prices(entries[i].code).Ok? && m == Quoted(entries[i], prices(entries[i].code).value)
    ensures forall i :: 0 <= i < |entries| && prices(entries[i].code).Ok?
              ==> Quoted(entries[i], prices(entries[i].code).value) in QuotedAll(entries, prices)
    decreases |entries|
  {
    if entries != [] {
      var init := entries[..|entries| - 1];
      var k := |entries| - 1;
      QuotedMembers(init, prices);
      forall m | m in QuotedAll(entries, prices)
        ensures exists i :: 0 <= i < |entries| && prices(entries[i].code).Ok? && m == Quoted(entries[i], prices(entries[i].code).value)
      {
        if m in QuotedAll(init, prices) {
          var i :| 0 <= i < |init| && prices(init[i].code).Ok? && m == Quoted(init[i], prices(init[i].code).value);
          assert init[i] == entries[i];
        } else {
          assert prices(entries[k].code).Ok? && m == Quoted(entries[k], prices(entries[k].code).value);
        }
      }
      forall i | 0 <= i < |entries| && prices(entries[i].code).Ok?
        ensures Quoted(entries[i], prices(entries[i].code).value) in QuotedAll(entries, prices)
      {
        if i < |init| {
          assert init[i] == entries[i];
        }
      }
    }
  }

  /** `s` is in descending order of change rate. */
  predicate SortedDesc(s: seq<MarketStock>) {
    forall i, j :: 0 <= i < j < |s| ==> s[i].changeRate >= s[j].changeRate
  }

  /** Inserts `x` after every element whose rate is at least its own. */
  function Insert(s: seq<MarketStock>, x: MarketStock): (r: seq<MarketStock>)
    ensures multiset(r) == multiset(s) + multiset{x}
    ensures |r| == |s| + 1
    ensures forall y :: y in r ==> y in s || y == x
  {
    if s == [] then [x]
    else if s[0].changeRate >= x.changeRate then
      assert s == [s[0]] + s[1..];
      [s[0]] + Insert(s[1..], x)
    else [x] + s
  }

  lemma {:induction false} InsertSorted(s: seq<MarketStock>, x: MarketStock)
    requires SortedDesc(s)
    ensures SortedDesc(Insert(s, x))
  {
    if s != [] && s[0].changeRate >= x.changeRate {
      InsertSorted(s[1..], x);
      var rest := Insert(s[1..], x);
      assert Insert(s, x) == [s[0]] + rest;
      forall j | 0 <= j < |rest|
        ensures s[0].changeRate >= rest[j].changeRate
      {
        assert rest[j] in rest;
      }
    }
  }

  /**
   * `sorted(stocks, key=change_rate, reverse=True)`: an insertion sort that
   * places each stock after the earlier ones of equal rate.
   */
  function SortByChangeRate(s: seq<MarketStock>): (r: seq<MarketStock>)
    ensures multiset(r) == multiset(s)
    ensures |r| == |s|
    ensures SortedDesc(r)
    decreases |s|
  {
    if s == [] then []
    else
      var init := s[..|s| - 1];
      assert s == init + [s[|s| - 1]];
      var sortedInit := SortByChangeRate(init);
      InsertSorted(sortedInit, s[|s| - 1]);
      Insert(sortedInit, s[|s| - 1])
  }

  predicate Gaining(x: MarketStock) { x.changeRate > 0 }

  predicate Losing(x: MarketStock) { x.changeRate < 0 }

  /** Filtering keeps a descending order. */
  lemma {:induction false} FilterSortedDesc(s: seq<MarketStock>, p: MarketStock -> bool)
    requires SortedDesc(s)
    ensures SortedDesc(Filter(s, p))
  {
    if s != [] {
      FilterSortedDesc(s[1..], p);
      var rest := Filter(s[1..], p);
      forall j | 0 <= j < |rest|
        ensures s[0].changeRate >= rest[j].changeRate
      {
        assert rest[j] in s[1..];
      }
    }
  }

  /** `[s for s in sorted_stocks if s["change_rate"] > 0][:5]`. */
  function TopGainers(stocks: seq<MarketStock>): (g: seq<MarketStock>)
    ensures |g| <= TopCount
    ensures SortedDesc(g)
    ensures forall x :: x in g ==> x in stocks && Gaining(x)
  {
    var sorted := SortByChangeRate(stocks);
    FilterSortedDesc(sorted, Gaining);
    var g := SliceTo(Filter(sorted, Gaining), TopCount);
    assert forall x :: x in g ==> x in Filter(sorted, Gaining);
    assert forall x :: x in sorted ==> x in multiset(stocks);
    g
  }

  /** `[s for s in sorted_stocks if s["change_rate"] < 0][-5:]`: the five steepest losses, steepest last. */
  function TopLosers(stocks: seq<MarketStock>): (l: seq<MarketStock>)
    ensures |l| <= TopCount
    ensures SortedDesc(l)
    ensures forall x :: x in l ==> x in stocks && Losing(x)
  {
    var sorted := SortByChangeRate(stocks);
    FilterSortedDesc(sorted, Losing);
    var losing := Filter(sorted, Losing);
    var l := LastN(losing, TopCount);
    assert forall x :: x in l ==> x in losing;
    assert forall x :: x in sorted ==> x in multiset(stocks);
    l
  }

  /** Five gainers or fewer, and a gaining stock left out ranks no higher than any of the five reported. */
  lemma TopGainersAreTop(stocks: seq<MarketStock>, x: MarketStock)
    requires x in stocks && Gaining(x) && x !in TopGainers(stocks)
    ensures |TopGainers(stocks)| == TopCount
    ensures forall y :: y in TopGainers(stocks) ==> y.changeRate >= x.changeRate
  {
    var sorted := SortByChangeRate(stocks);
    assert x in multiset(sorted);
    FilterKeeps(sorted, x, Gaining);
    FilterSortedDesc(sorted, Gaining);
    PrefixOmits(Filter(sorted, Gaining), x, TopCount);
  }

  /** Five losers or fewer, and a losing stock left out has lost no more than any of the five reported. */
  lemma TopLosersAreBottom(stocks: seq<MarketStock>, x: MarketStock)
    requires x in stocks && Losing(x) && x !in TopLosers(stocks)
    ensures |TopLosers(stocks)| == TopCount
    ensures forall y :: y in TopLosers(stocks) ==> y.changeRate <= x.changeRate
  {
    var sorted := SortByChangeRate(stocks);
    assert x in multiset(sorted);
    FilterKeeps(sorted, x, Losing);
    FilterSortedDesc(sorted, Losing);
    SuffixOmits(Filter(sorted, Losing), x, TopCount);
  }

  /** An element of a descending list missing from its first `n` ranks no higher than any of them. */
  lemma PrefixOmits(f: seq<MarketStock>, x: MarketStock, n: nat)
    requires SortedDesc(f) && x in f && x !in SliceTo(f, n)
    ensures |SliceTo(f, n)| == n
    ensures forall y :: y in SliceTo(f, n) ==> y.changeRate >= x.changeRate
  {
    var j :| 0 <= j < |f| && f[j] == x;
    var g := SliceTo(f, n);
    assert g == f[..|g|];
    forall y | y in g
      ensures y.changeRate >= x.changeRate
    {
      var i :| 0 <= i < |g| && g[i] == y;
      assert f[i] == y;
    }
  }

  /** An element of a descending list missing from its last `n` ranks no lower than any of them. */
  lemma SuffixOmits(f: seq<MarketStock>, x: MarketStock, n: nat)
    requires SortedDesc(f) && x in f && x !in LastN(f, n)
    ensures |LastN(f, n)| == n
    ensures forall y :: y in LastN(f, n) ==> y.changeRate <= x.changeRate
  {
    var j :| 0 <= j < |f| && f[j] == x;
    var l := LastN(f, n);
    forall y | y in l
      ensures y.changeRate <= x.changeRate
    {
      var i :| 0 <= i < |l| && l[i] == y;
      assert f[|f| - |l| + i] == y;
    }
  }

  /**
   * The sector filter is on only for a non-empty sector name: without
   * one, only volume and change rate decide; with one, a stock of another
   * sector never passes.
   */
  predicate Passes(s: MarketStock, minVolume: int, minChange: int, maxChange: int, sector: Option<string>)
    ensures sector.None? || sector == Some("") ==>
              (Passes(s, minVolume, minChange, maxChange, sector) <==> s.volume >= minVolume && minChange <= s.changeRate <= maxChange)
    ensures Passes(s, minVolume, minChange, maxChange, sector) ==> s.volume >= minVolume && minChange <= s.changeRate <= maxChange
    ensures sector.Some? && sector.value != "" && s.sector != sector.value ==> !Passes(s, minVolume, minChange, maxChange, sector)
  {
    && s.volume >= minVolume
    && minChange <= s.changeRate <= maxChange
    && (sector.Some? && sector.value != "" ==> s.sector == sector.value)
  }

  /**
   * The loop of `screen_stocks` over the quoted stocks: exactly those
   * that pass the volume, change-rate and sector filters, in order.
   */
  method ScreenStocks(stocks: seq<MarketStock>, minVolume: int, minChange: int, maxChange: int, sector: Option<string>)
    returns (filtered: seq<MarketStock>)
    ensures filtered == Filter(stocks, (s: MarketStock) => Passes(s, minVolume, minChange, maxChange, sector))
    ensures forall s :: s in filtered <==> s in stocks && Passes(s, minVolume, minChange, maxChange, sector)
  {
    var pass := (s: MarketStock) => Passes(s, minVolume, minChange, maxChange, sector);
    filtered := [];
    var k := 0;
    while k < |stocks|
      invariant 0 <= k <= |stocks|
      invariant filtered == Filter(stocks[..k], pass)
    {
      FilterPrefixStep(stocks, k, pass);
      var s := stocks[k];
      if !(s.volume >= minVolume && minChange <= s.changeRate <= maxChange) {
        k := k + 1;
        continue;
      }
      if sector.Some? && sector.value != "" && s.sector != sector.value {
        k := k + 1;
        continue;
      }
      filtered := filtered + [s];
      k := k + 1;
    }
    assert stocks[..k] == stocks;
    FilterMembers(stocks, pass);
  }

  /** The module-level watchlist. */
  class Screener {
    var watchlist: seq<WatchEntry>

    constructor ()
      ensures watchlist == InitialWatchlist
    {
      watchlist := InitialWatchlist;
    }

    /**
     * `get_kospi_profitable_stocks`: the watchlist entries listed among the
     * profitable tickers, falling back to the whole watchlist when the
     * lookup fails, lists nothing, or leaves nothing.
     */
    function GetKospiProfitableStocks(tickers: Result<seq<string>>): (r: seq<WatchEntry>)
      reads this
      ensures tickers.Err? || (tickers.Ok? && tickers.value == []) ==> r == watchlist
      ensures forall e :: e in r ==> e in watchlist
      ensures tickers.Ok? && r != watchlist ==> forall e :: e in r ==> e.code in tickers.value
      ensures watchlist != [] ==> r != []
      ensures (tickers.Ok? && Filter(watchlist, (e: WatchEntry) => e.code in tickers.value) != [])
                ==> r == Filter(watchlist, (e: WatchEntry) => e.code in tickers.value)
      ensures tickers.Ok? && Filter(watchlist, (e: WatchEntry) => e.code in tickers.value) == [] ==> r == watchlist
    {
      ProfitableStocks(watchlist, tickers)
    }

    /**
     * `get_market_data`: quotes the profitable watchlist entries, skipping
     * the ones whose lookup raised, and ranks them.
     */
    method GetMarketData(tickers: Result<seq<string>>, prices: string -> Result<PriceOutput>) returns (data: MarketData)
      ensures data.stocks == QuotedAll(ProfitableStocks(watchlist, tickers), prices)
      ensures data.topGainers == TopGainers(data.stocks)
      ensures data.topLosers == TopLosers(data.stocks)
    {
      var entries := ProfitableStocks(watchlist, tickers);
      var stocks := [];
      var k := 0;
      while k < |entries|
        invariant 0 <= k <= |entries|
        invariant stocks == QuotedAll(entries[..k], prices)
      {
        QuotedStep(entries, k, prices);
        var reply := prices(entries[k].code);
        if reply.Ok? {
          stocks := stocks + [Quoted(entries[k], reply.value)];
        }
        k := k + 1;
      }
      assert entries[..k] == entries;
      data := MarketData(stocks, [], []);
      if stocks != [] {
        data := MarketData(stocks, TopGainers(stocks), TopLosers(stocks));
      } else {
        assert TopGainers(stocks) == [] && TopLosers(stocks) == [];
      }
    }

    /** `get_sectors`: the non-empty sectors of the watchlist. */
    function GetSectors(): (r: set<string>)
      reads this
      ensures forall x :: x in r <==> x != "" && exists i :: 0 <= i < |watchlist| && watchlist[i].sector == x
    {
      set i | 0 <= i < |watchlist| && watchlist[i].sector != "" :: watchlist[i].sector
    }

    /**
     * `add_to_watchlist`: a code missing from the KOSPI ticker list is
     * refused; otherwise, and also when the ticker lookup raised, the entry
     * is appended.
     */
    method AddToWatchlist(code: string, name: string, sector: string, tickers: Result<seq<string>>) returns (added: bool)
      modifies this
      ensures added <==> tickers.Err? || code in tickers.value
      ensures added ==> watchlist == old(watchlist) + [WatchEntry(code, name, sector)]
      ensures !added ==> watchlist == old(watchlist)
    {
      if tickers.Ok? && code !in tickers.value {
        return false;
      }
      watchlist := watchlist + [WatchEntry(code, name, sector)];
      return true;
    }

    /** `get_watchlist`: a copy of the current list. */
    method GetWatchlist() returns (w: seq<WatchEntry>)
      ensures w == watchlist
    {
      w := watchlist;
    }
  }
}
