/**
 * Stock search (`src/data/stock_search.py`): a query is classified by a
 * cascade over the table of popular stocks (exact key, upper-cased key,
 * six-digit Korean code, partial key match), then by its script (Hangul
 * names go to the listed-company lookup, short Latin words are taken as
 * US tickers). The listed-company lookup, which consults pykrx and keeps
 * a cache, is the parameter `listed`.
 */
module StockSearch {
  import opened Base
  import Text

  /** A table value: code, market, and the optional exchange and display name. */
  datatype Entry = Entry(code: string, market: string, exchange: Option<string>, name: Option<string>)

  /** A search result; unlike a table value it always carries a name. */
  datatype StockInfo = StockInfo(code: string, market: string, exchange: Option<string>, name: string)

  function Kr(code: string): Entry { Entry(code, "KR", None, None) }

  function Us(code: string, name: Option<string>): Entry { Entry(code, "US", Some("NAS"), name) }

  /** `POPULAR_STOCKS`, in the order of its literal (dictionary iteration order). */
  const PopularStocks: seq<(string, Entry)> := [
    ("삼성전자", Kr("005930")),
    ("SK하이닉스", Kr("000660")),
    ("현대차", Kr("005380")),
    ("기아", Kr("000270")),
    ("네이버", Kr("035420")),
    ("카카오", Kr("035720")),
    ("LG에너지솔루션", Kr("373220")),
    ("삼성바이오로직스", Kr("207940")),
    ("삼성SDI", Kr("006400")),
    ("POSCO홀딩스", Kr("005490")),
    ("현대모비스", Kr("012330")),
    ("LG화학", Kr("051910")),
    ("신한지주", Kr("055550")),
    ("KB금융", Kr("105560")),
    ("SK텔레콤", Kr("017670")),
    ("KT", Kr("030200")),
    ("하나금융지주", Kr("086790")),
    ("SK이노베이션", Kr("096770")),
    ("S-Oil", Kr("010950")),
    ("HD한국조선해양", Kr("009540")),
    ("한화오션", Kr("042660")),
    ("신세계", Kr("004170")),
    ("현대건설", Kr("000720")),
    ("셀트리온", Kr("068270")),
    ("크래프톤", Kr("259960")),
    ("두산에너빌리티", Kr("034020")),
    ("애플", Us("AAPL", None)),
    ("테슬라", Us("TSLA", None)),
    ("엔비디아", Us("NVDA", None)),
    ("마이크로소프트", Us("MSFT", None)),
    ("구글", Us("GOOGL", None)),
    ("아마존", Us("AMZN", None)),
    ("메타", Us("META", None)),
    ("AAPL", Us("AAPL", Some("애플"))),
    ("TSLA", Us("TSLA", Some("테슬라"))),
    ("NVDA", Us("NVDA", Some("엔비디아"))),
    ("MSFT", Us("MSFT", Some("마이크로소프트"))),
    ("GOOGL", Us("GOOGL", Some("구글"))),
    ("AMZN", Us("AMZN", Some("아마존"))),
    ("META", Us("META", Some("메타"))),
    ("AMD", Us("AMD", Some("AMD"))),
    ("INTC", Us("INTC", Some("인텔"))),
    ("NFLX", Us("NFLX", Some("넷플릭스")))
  ]

  /** Every value of the table is a Korean code without exchange or a US code on NASDAQ. */
  predicate WellFormedTable(t: seq<(string, Entry)>) {
    forall i :: 0 <= i < |t| ==>
      (t[i].1.market == "KR" && t[i].1.exchange.None?)
      || (t[i].1.market == "US" && t[i].1.exchange == Some("NAS"))
  }

  /** `_contains_korean`: some character is a Hangul syllable. */
  function ContainsKorean(s: string): (b: bool)
    ensures b <==> exists i :: 0 <= i < |s| && Text.IsHangulSyllable(s[i])
  {
    if s == [] then false
    else if Text.IsHangulSyllable(s[0]) then true
    else
      var b := ContainsKorean(s[1..]);
      assert forall i :: 1 <= i < |s| ==> s[i] == s[1..][i - 1];
      b
  }

  /** `key in table`: the position of `key`, if any. */
  function IndexOfKey(t: seq<(string, Entry)>, key: string): (r: Option<nat>)
    ensures r.Some? ==> r.value < |t| && t[r.value].0 == key
    ensures r.None? ==> forall i :: 0 <= i < |t| ==> t[i].0 != key
  {
    if t == [] then None
    else if t[0].0 == key then Some(0)
    else match IndexOfKey(t[1..], key)
      case None => None
      case Some(i) => Some(i + 1)
  }

  /** The partial-match test of the table scan. */
  predicate PartialMatch(key: string, query: string, queryUpper: string) {
    Text.Contains(key, query) || Text.Contains(key, queryUpper)
  }

  /** The position the table scan stops at: the first key the query or the upper-cased query occurs in. */
  function FirstPartialMatch(t: seq<(string, Entry)>, query: string, queryUpper: string): (r: Option<nat>)
    ensures r.Some? ==> r.value < |t| && PartialMatch(t[r.value].0, query, queryUpper)
    ensures r.Some? ==> forall j :: 0 <= j < r.value ==> !PartialMatch(t[j].0, query, queryUpper)
    ensures r.None? ==> forall j :: 0 <= j < |t| ==> !PartialMatch(t[j].0, query, queryUpper)
  {
    if t == [] then None
    else if PartialMatch(t[0].0, query, queryUpper) then Some(0)
    else match FirstPartialMatch(t[1..], query, queryUpper)
      case None => None
      case Some(i) => Some(i + 1)
  }

  /** `POPULAR_STOCKS[key].copy()` with `name` filled in when the entry has none. */
  function Named(e: Entry, fallback: string): (s: StockInfo)
    ensures s.code == e.code && s.market == e.market && s.exchange == e.exchange
    ensures e.name.Some? ==> s.name == e.name.value
    ensures e.name.None? ==> s.name == fallback
  {
    StockInfo(e.code, e.market, e.exchange, e.name.GetOr(fallback))
  }

  /**
   * `query.upper().strip()`: no lower-case ASCII letter is left, no edge
   * whitespace, and nothing is added.
   */
  function QueryUpper(query: string): (u: string)
    ensures |u| <= |query|
    ensures forall i :: 0 <= i < |u| ==> !('a' <= u[i] <= 'z')
    ensures Text.NoEdgeSpace(u)
  {
    StripNoLower(Text.Upper(query));
    Text.Strip(Text.Upper(query))
  }

  /** Stripping keeps a slice: never longer, and no lower-case ASCII letter appears. */
  lemma StripNoLower(s: string)
    requires forall i :: 0 <= i < |s| ==> !('a' <= s[i] <= 'z')
    ensures |Text.Strip(s)| <= |s|
    ensures forall i :: 0 <= i < |Text.Strip(s)| ==> !('a' <= Text.Strip(s)[i] <= 'z')
  {
    var u := Text.Strip(s);
    var k :| Text.TrimmedAt(s, k, u);
    SliceNoLower(s, k, u);
  }

  /** A slice of a text without lower-case ASCII letters has none either. */
  lemma SliceNoLower(s: string, k: int, u: string)
    requires Text.TrimmedAt(s, k, u)
    requires forall i :: 0 <= i < |s| ==> !('a' <= s[i] <= 'z')
    ensures forall i :: 0 <= i < |u| ==> !('a' <= u[i] <= 'z')
  {
    forall i | 0 <= i < |u| ensures !('a' <= u[i] <= 'z') {
      assert u[i] == s[k + i];
    }
  }

  /**
   * The shape of the US-ticker fallback: one to five letters. Such a text
   * holds no Hangul syllable, no digit and no whitespace.
   */
  predicate TickerShaped(q: string)
    ensures TickerShaped(q) ==> 1 <= |q| <= 5
    ensures TickerShaped(q) ==> forall i :: 0 <= i < |q| ==>
              !Text.IsHangulSyllable(q[i]) && !('0' <= q[i] <= '9') && !Text.IsSpace(q[i])
  {
    Text.IsAlphaString(q) && 1 <= |q| <= 5
  }

  /**
   * `search_stock(query)` over table `t`; `listed` is `_search_by_pykrx`,
   * whose `None` (or empty result) ends the search for a Hangul query.
   * A key equal to the query always answers, and nothing is found only
   * when no key matches the query in any of the ways tried.
   */
  function Search(t: seq<(string, Entry)>, query: string, listed: string -> Option<StockInfo>): (r: Option<StockInfo>)
    ensures (exists i :: 0 <= i < |t| && t[i].0 == query) ==> r.Some? && r.value.code == t[IndexOfKey(t, query).value].1.code
    ensures r.None? ==> NoDirectHit(t, query) && FirstPartialMatch(t, query, QueryUpper(query)).None?
  {
    match IndexOfKey(t, query)
    case Some(i) => Some(Named(t[i].1, query))
    case None => UpperOrCode(t, query, QueryUpper(query), listed)
  }

  /** The search once the query itself is not a key: the upper-cased key, then a six-digit code. */
  function UpperOrCode(t: seq<(string, Entry)>, query: string, upper: string,
                       listed: string -> Option<StockInfo>): (r: Option<StockInfo>)
    ensures r.None? ==> IndexOfKey(t, upper).None? && !(Text.IsDigitString(query) && |query| == 6)
                        && FirstPartialMatch(t, query, upper).None?
  {
    match IndexOfKey(t, upper)
    case Some(i) => Some(Named(t[i].1, upper))
    case None =>
      if Text.IsDigitString(query) && |query| == 6 then Some(StockInfo(query, "KR", None, query))
      else PartialOrGuess(t, query, upper, listed)
  }

  /**
   * The rest of the search once the direct lookups fail: the table scan,
   * then the pykrx lookup for a Hangul query or the ticker guess for any
   * other. A Hangul query is never guessed to be a ticker.
   */
  function PartialOrGuess(t: seq<(string, Entry)>, query: string, upper: string,
                          listed: string -> Option<StockInfo>): (r: Option<StockInfo>)
    ensures FirstPartialMatch(t, query, upper).None? && ContainsKorean(query) ==> r == listed(query)
    ensures FirstPartialMatch(t, query, upper).None? && !ContainsKorean(query) ==>
              (r.Some? <==> TickerShaped(upper))
              && (r.Some? ==> r.value.code == upper && r.value.market == "US" && r.value.exchange == Some("NAS"))
    ensures r.None? ==> FirstPartialMatch(t, query, upper).None?
  {
    match FirstPartialMatch(t, query, upper)
    case Some(i) => Some(Named(t[i].1, t[i].0))
    case None =>
      if ContainsKorean(query) then listed(query)
      else if TickerShaped(upper) then Some(StockInfo(upper, "US", Some("NAS"), upper))
      else None
  }

  /** A key equal to the query wins, named after the query when the entry has no name. */
  lemma SearchExact(t: seq<(string, Entry)>, query: string, listed: string -> Option<StockInfo>, i: nat)
    requires IndexOfKey(t, query) == Some(i)
    ensures Search(t, query, listed) == Some(Named(t[i].1, query))
  {
  }

  /** Otherwise a key equal to the stripped, upper-cased query wins, named after that form. */
  lemma SearchUpper(t: seq<(string, Entry)>, query: string, listed: string -> Option<StockInfo>, i: nat)
    requires IndexOfKey(t, query).None? && IndexOfKey(t, QueryUpper(query)) == Some(i)
    ensures Search(t, query, listed) == Some(Named(t[i].1, QueryUpper(query)))
  {
  }

  /** Otherwise a six-digit query is taken as a Korean stock code, named after itself. */
  lemma SearchCode(t: seq<(string, Entry)>, query: string, listed: string -> Option<StockInfo>)
    requires IndexOfKey(t, query).None? && IndexOfKey(t, QueryUpper(query)).None?
    requires Text.IsDigitString(query) && |query| == 6
    ensures Search(t, query, listed) == Some(StockInfo(query, "KR", None, query))
  {
  }

  /** The query matched no key, exactly or upper-cased, and is not a six-digit code. */
  predicate NoDirectHit(t: seq<(string, Entry)>, query: string) {
    && IndexOfKey(t, query).None?
    && IndexOfKey(t, QueryUpper(query)).None?
    && !(Text.IsDigitString(query) && |query| == 6)
  }

  /** After the direct lookups, the first key containing the query decides, with the key as default name. */
  lemma SearchPartial(t: seq<(string, Entry)>, query: string, listed: string -> Option<StockInfo>, i: nat)
    requires NoDirectHit(t, query)
    requires i < |t| && PartialMatch(t[i].0, query, QueryUpper(query))
    requires forall j :: 0 <= j < i ==> !PartialMatch(t[j].0, query, QueryUpper(query))
    ensures Search(t, query, listed) == Some(Named(t[i].1, t[i].0))
  {
    var r := FirstPartialMatch(t, query, QueryUpper(query));
    if r != Some(i) {
      assert false;
    }
  }

  /**
   * A query with a Hangul syllable that no key matches is answered by the
   * listed-company lookup alone: it never becomes a US ticker.
   */
  lemma SearchKorean(t: seq<(string, Entry)>, query: string, listed: string -> Option<StockInfo>)
    requires NoDirectHit(t, query)
    requires forall j :: 0 <= j < |t| ==> !PartialMatch(t[j].0, query, QueryUpper(query))
    requires exists i :: 0 <= i < |query| && Text.IsHangulSyllable(query[i])
    ensures Search(t, query, listed) == listed(query)
  {
  }

  /** Without Hangul and without any table match, the result is the NASDAQ ticker guess or nothing. */
  lemma SearchTicker(t: seq<(string, Entry)>, query: string, listed: string -> Option<StockInfo>)
    requires NoDirectHit(t, query)
    requires forall j :: 0 <= j < |t| ==> !PartialMatch(t[j].0, query, QueryUpper(query))
    requires forall i :: 0 <= i < |query| ==> !Text.IsHangulSyllable(query[i])
    ensures TickerShaped(QueryUpper(query)) ==>
              Search(t, query, listed) == Some(StockInfo(QueryUpper(query), "US", Some("NAS"), QueryUpper(query)))
    ensures !TickerShaped(QueryUpper(query)) ==> Search(t, query, listed) == None
  {
    var u := QueryUpper(query);
    assert !ContainsKorean(query);
    if FirstPartialMatch(t, query, u).Some? {
      assert false;
    }
    assert Search(t, query, listed) == UpperOrCode(t, query, u, listed) == PartialOrGuess(t, query, u, listed);
  }

  /**
   * Over a well-formed table, and with a lookup that only returns Korean
   * stocks, every result is a Korean stock without exchange or a US stock
   * on NASDAQ.
   */
  lemma SearchMarkets(t: seq<(string, Entry)>, query: string, listed: string -> Option<StockInfo>)
    requires WellFormedTable(t)
    requires listed(query).Some? ==> listed(query).value.market == "KR" && listed(query).value.exchange.None?
    ensures var r := Search(t, query, listed);
            r.Some? ==> (r.value.market == "KR" && r.value.exchange.None?)
                        || (r.value.market == "US" && r.value.exchange == Some("NAS"))
  {
    var upper := QueryUpper(query);
    var i: nat;
    if IndexOfKey(t, query).Some? {
      i := IndexOfKey(t, query).value;
      SearchExact(t, query, listed, i);
    } else if IndexOfKey(t, upper).Some? {
      i := IndexOfKey(t, upper).value;
      SearchUpper(t, query, listed, i);
    } else if Text.IsDigitString(query) && |query| == 6 {
      SearchCode(t, query, listed);
      return;
    } else if FirstPartialMatch(t, query, upper).Some? {
      i := FirstPartialMatch(t, query, upper).value;
      SearchPartial(t, query, listed, i);
    } else {
      if ContainsKorean(query) {
        SearchKorean(t, query, listed);
      } else {
        SearchTicker(t, query, listed);
      }
      return;
    }
    assert (t[i].1.market == "KR" && t[i].1.exchange.None?) || (t[i].1.market == "US" && t[i].1.exchange == Some("NAS"));
  }

  /** The table itself is well formed. */
  lemma PopularStocksWellFormed()
    ensures WellFormedTable(PopularStocks)
  {
    forall i | 0 <= i < |PopularStocks|
      ensures (PopularStocks[i].1.market == "KR" && PopularStocks[i].1.exchange.None?)
              || (PopularStocks[i].1.market == "US" && PopularStocks[i].1.exchange == Some("NAS"))
    {
    }
  }

  /** The empty string occurs in every key, so an empty query returns the first entry of the table. */
  lemma SearchEmptyQuery(listed: string -> Option<StockInfo>)
    ensures Search(PopularStocks, "", listed) == Some(StockInfo("005930", "KR", None, "삼성전자"))
  {
    PopularKeysNonEmpty();
    SearchEmptyFirst(PopularStocks, listed);
  }

  /** Over a table without an empty key, the empty query partially matches the first key. */
  lemma SearchEmptyFirst(t: seq<(string, Entry)>, listed: string -> Option<StockInfo>)
    requires t != []
    requires forall i :: 0 <= i < |t| ==> |t[i].0| > 0
    ensures Search(t, "", listed) == Some(Named(t[0].1, t[0].0))
  {
    var u := QueryUpper("");
    assert u == [];
    if IndexOfKey(t, "").Some? {
      assert false;
    }
    assert Text.OccursAt(t[0].0, "", 0);
    assert PartialMatch(t[0].0, "", u);
    SearchPartial(t, "", listed, 0);
  }

  /** No key of `POPULAR_STOCKS` is empty. */
  lemma PopularKeysNonEmpty()
    ensures forall i :: 0 <= i < |PopularStocks| ==> |PopularStocks[i].0| > 0
  {
    forall i | 0 <= i < |PopularStocks| ensures |PopularStocks[i].0| > 0 {
    }
  }

  /**
   * `search_stock` itself: the search over `POPULAR_STOCKS`. Nothing is
   * found only when the query is no key and occurs in no key.
   */
  function SearchStock(query: string, listed: string -> Option<StockInfo>): (r: Option<StockInfo>)
    ensures r.None? ==> forall i :: 0 <= i < |PopularStocks| ==>
              PopularStocks[i].0 != query && !Text.Contains(PopularStocks[i].0, query)
  {
    Search(PopularStocks, query, listed)
  }

  /** `search_stock` answers only with Korean stocks or NASDAQ stocks when the listed-company lookup is Korean. */
  lemma SearchStockMarkets(query: string, listed: string -> Option<StockInfo>)
    requires listed(query).Some? ==> listed(query).value.market == "KR" && listed(query).value.exchange.None?
    ensures var r := SearchStock(query, listed);
            r.Some? ==> (r.value.market == "KR" && r.value.exchange.None?)
                        || (r.value.market == "US" && r.value.exchange == Some("NAS"))
  {
    PopularStocksWellFormed();
    SearchMarkets(PopularStocks, query, listed);
  }

  /** `get_stock_info`: code, name, market and exchange (empty when absent), or nothing. */
  function GetStockInfo(query: string, listed: string -> Option<StockInfo>): (r: Option<(string, string, string, string)>)
    ensures SearchStock(query, listed).None? <==> r.None?
    ensures r.Some? ==>
              var s := SearchStock(query, listed).value;
              r.value == (s.code, s.name, s.market, s.exchange.GetOr(""))
  {
    match SearchStock(query, listed)
    case None => None
    case Some(s) => Some((s.code, s.name, s.market, s.exchange.GetOr("")))
  }
}
