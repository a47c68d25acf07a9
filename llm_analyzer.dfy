/**
 * The deterministic part of the LLM analysis (`src/analysis/llm_analyzer.py`):
 * sizing a buy by confidence, and turning the items of the model's JSON
 * reply into trade decisions and daily recommendations. The chat-completion
 * call and the price lookup are parameters.
 */
module LlmAnalyzer {
  import opened Base
  import Text

  /** `RISK_CONFIG` amounts the analysis reads. */
  const MinBuyAmount := 100000
  const MaxBuyAmount := 5000000
  const DefaultBuyAmount := 1000000

  datatype TradeDecision = TradeDecision(
    action: string, stockCode: string, stockName: string,
    quantity: int, price: int, reason: string, confidence: int)

  /** One element of the model's reply; a key the model left out is `None`. */
  datatype Item = Item(
    stockCode: Option<string>, stockName: Option<string>, quantity: Option<int>,
    price: Option<int>, reason: Option<string>, confidence: Option<int>)

  /** The decoded reply: a JSON array, or an object that may wrap the array. */
  datatype Decoded =
    | List(items: seq<Item>)
    | Object(recommendations: Option<seq<Item>>, stocks: Option<seq<Item>>)

  /** `result.get("recommendations", result.get("stocks", []))` for an object; the array itself otherwise. */
  function ReplyItems(d: Decoded): (items: seq<Item>)
    ensures d.List? ==> items == d.items
    ensures d.Object? && d.recommendations.Some? ==> items == d.recommendations.value
    ensures d.Object? && d.recommendations.None? && d.stocks.Some? ==> items == d.stocks.value
    ensures d.Object? && d.recommendations.None? && d.stocks.None? ==> items == []
  {
    match d
    case List(s) => s
    case Object(r, s) => r.GetOr(s.GetOr([]))
  }

  /**
   * `calculate_buy_amount`: the maximum from confidence 9, the default for
   * 5 and 6, the minimum up to 2, and truncated interpolations in between.
   */
  function CalculateBuyAmount(confidence: int, minAmount: int, maxAmount: int, defaultAmount: int): (r: int)
    ensures confidence >= 9 ==> r == maxAmount
    ensures 5 <= confidence <= 6 ==> r == defaultAmount
    ensures confidence <= 2 ==> r == minAmount
  {
    if confidence >= 9 then maxAmount
    else if confidence >= 7 then TruncDiv(4 * defaultAmount + (maxAmount - defaultAmount) * (confidence - 6), 4)
    else if confidence >= 5 then defaultAmount
    else if confidence >= 3 then TruncDiv(3 * minAmount + (defaultAmount - minAmount) * (confidence - 2), 3)
    else minAmount
  }

  /** Truncating division by 3 or 4 (the divisors of the two interpolations) is monotone in the dividend. */
  lemma TruncDivMonotone(a1: int, a2: int, b: int)
    requires a1 <= a2 && (b == 3 || b == 4)
    ensures TruncDiv(a1, b) <= TruncDiv(a2, b)
  {
    if b == 3 {
      assert TruncDiv(a1, 3) == (if a1 >= 0 then a1 / 3 else -((-a1) / 3));
      assert TruncDiv(a2, 3) == (if a2 >= 0 then a2 / 3 else -((-a2) / 3));
    } else {
      assert TruncDiv(a1, 4) == (if a1 >= 0 then a1 / 4 else -((-a1) / 4));
      assert TruncDiv(a2, 4) == (if a2 >= 0 then a2 / 4 else -((-a2) / 4));
    }
  }

  /** A multiple of 3 or 4 divides back exactly. */
  lemma TruncDivMultiple(k: int, b: int)
    requires b == 3 || b == 4
    ensures TruncDiv(b * k, b) == k
  {
    if b == 3 {
      assert TruncDiv(3 * k, 3) == (if 3 * k >= 0 then (3 * k) / 3 else -((-3 * k) / 3));
    } else {
      assert TruncDiv(4 * k, 4) == (if 4 * k >= 0 then (4 * k) / 4 else -((-4 * k) / 4));
    }
  }

  /** The two interpolated tiers written out for each confidence level. */
  lemma InterpolatedTiers(lo: int, hi: int, d: int)
    ensures CalculateBuyAmount(3, lo, hi, d) == TruncDiv(2 * lo + d, 3)
    ensures CalculateBuyAmount(4, lo, hi, d) == TruncDiv(lo + 2 * d, 3)
    ensures CalculateBuyAmount(7, lo, hi, d) == TruncDiv(3 * d + hi, 4)
    ensures CalculateBuyAmount(8, lo, hi, d) == TruncDiv(2 * d + 2 * hi, 4)
  {
  }

  /** From confidence 2 to 5 the amount does not drop. */
  lemma LowerSteps(lo: int, hi: int, d: int)
    requires lo <= d <= hi
    ensures CalculateBuyAmount(2, lo, hi, d) <= CalculateBuyAmount(3, lo, hi, d)
    ensures CalculateBuyAmount(3, lo, hi, d) <= CalculateBuyAmount(4, lo, hi, d)
    ensures CalculateBuyAmount(4, lo, hi, d) <= CalculateBuyAmount(5, lo, hi, d)
  {
    InterpolatedTiers(lo, hi, d);
    TruncDivMultiple(lo, 3);
    TruncDivMonotone(3 * lo, 2 * lo + d, 3);
    TruncDivMonotone(2 * lo + d, lo + 2 * d, 3);
    TruncDivMultiple(d, 3);
    TruncDivMonotone(lo + 2 * d, 3 * d, 3);
  }

  /** From confidence 6 to 9 the amount does not drop. */
  lemma UpperSteps(lo: int, hi: int, d: int)
    requires lo <= d <= hi
    ensures CalculateBuyAmount(6, lo, hi, d) <= CalculateBuyAmount(7, lo, hi, d)
    ensures CalculateBuyAmount(7, lo, hi, d) <= CalculateBuyAmount(8, lo, hi, d)
    ensures CalculateBuyAmount(8, lo, hi, d) <= CalculateBuyAmount(9, lo, hi, d)
  {
    InterpolatedTiers(lo, hi, d);
    TruncDivMultiple(d, 4);
    TruncDivMonotone(4 * d, 3 * d + hi, 4);
    UpperMiddleStep(lo, hi, d);
    TruncDivMultiple(hi, 4);
    TruncDivMonotone(2 * d + 2 * hi, 4 * hi, 4);
  }

  /** From confidence 7 to 8 the amount does not drop. */
  lemma UpperMiddleStep(lo: int, hi: int, d: int)
    requires d <= hi
    ensures CalculateBuyAmount(7, lo, hi, d) <= CalculateBuyAmount(8, lo, hi, d)
  {
    var a7, a8 := 3 * d + hi, 2 * d + 2 * hi;
    assert CalculateBuyAmount(7, lo, hi, d) == TruncDiv(a7, 4);
    assert CalculateBuyAmount(8, lo, hi, d) == TruncDiv(a8, 4);
    TruncDivMonotone(a7, a8, 4);
  }

  /** One more point of confidence never lowers the amount. */
  lemma BuyAmountStep(c: int, minAmount: int, maxAmount: int, defaultAmount: int)
    requires minAmount <= defaultAmount <= maxAmount
    ensures CalculateBuyAmount(c, minAmount, maxAmount, defaultAmount)
            <= CalculateBuyAmount(c + 1, minAmount, maxAmount, defaultAmount)
  {
    LowerSteps(minAmount, maxAmount, defaultAmount);
    UpperSteps(minAmount, maxAmount, defaultAmount);
    if 2 <= c <= 8 {
      assert c == 2 || c == 3 || c == 4 || c == 5 || c == 6 || c == 7 || c == 8;
    }
  }

  /** Given min <= default <= max, the amount is non-decreasing in confidence. */
  lemma {:induction false} BuyAmountMonotone(c1: int, c2: int, minAmount: int, maxAmount: int, defaultAmount: int)
    requires minAmount <= defaultAmount <= maxAmount
    requires c1 <= c2
    ensures CalculateBuyAmount(c1, minAmount, maxAmount, defaultAmount)
            <= CalculateBuyAmount(c2, minAmount, maxAmount, defaultAmount)
    decreases c2 - c1
  {
    if c1 < c2 {
      BuyAmountMonotone(c1, c2 - 1, minAmount, maxAmount, defaultAmount);
      BuyAmountStep(c2 - 1, minAmount, maxAmount, defaultAmount);
    }
  }

  /** Given min <= default <= max, the amount never leaves [min, max]. */
  lemma BuyAmountBounded(c: int, minAmount: int, maxAmount: int, defaultAmount: int)
    requires minAmount <= defaultAmount <= maxAmount
    ensures minAmount <= CalculateBuyAmount(c, minAmount, maxAmount, defaultAmount) <= maxAmount
  {
    if 2 < c < 9 {
      BuyAmountMonotone(2, c, minAmount, maxAmount, defaultAmount);
      BuyAmountMonotone(c, 9, minAmount, maxAmount, defaultAmount);
    }
  }

  /**
   * The amounts under the configured limits: 400000 and 700000 for
   * confidence 3 and 4, 2000000 and 3000000 for 7 and 8.
   */
  lemma ConfiguredAmounts()
    ensures CalculateBuyAmount(3, MinBuyAmount, MaxBuyAmount, DefaultBuyAmount) == 400000
    ensures CalculateBuyAmount(4, MinBuyAmount, MaxBuyAmount, DefaultBuyAmount) == 700000
    ensures CalculateBuyAmount(7, MinBuyAmount, MaxBuyAmount, DefaultBuyAmount) == 2000000
    ensures CalculateBuyAmount(8, MinBuyAmount, MaxBuyAmount, DefaultBuyAmount) == 3000000
  {
  }

  /** The decision `analyze_for_buy` makes of one item. */
  function BuyDecision(item: Item): (d: TradeDecision)
    ensures d.action == "buy"
    ensures d.confidence == item.confidence.GetOr(5) && d.price == item.price.GetOr(0)
    ensures d.stockCode == item.stockCode.GetOr("") && d.stockName == item.stockName.GetOr("")
    ensures d.reason == item.reason.GetOr("")
    ensures d.price > 0 ==> d.quantity >= 1
    ensures d.price > 0 ==> d.quantity == Max(1, CalculateBuyAmount(d.confidence, MinBuyAmount, MaxBuyAmount, DefaultBuyAmount) / d.price)
    ensures d.price <= 0 ==> d.quantity == item.quantity.GetOr(1)
  {
    var confidence := item.confidence.GetOr(5);
    var price := item.price.GetOr(0);
    var amount := CalculateBuyAmount(confidence, MinBuyAmount, MaxBuyAmount, DefaultBuyAmount);
    BuyAmountBounded(confidence, MinBuyAmount, MaxBuyAmount, DefaultBuyAmount);
    var quantity := if price > 0 then Max(1, TruncDiv(amount, price)) else item.quantity.GetOr(1);
    TradeDecision("buy", item.stockCode.GetOr(""), item.stockName.GetOr(""),
                  quantity, price, item.reason.GetOr(""), confidence)
  }

  /** The decision `analyze_for_sell` makes of one item. */
  function SellDecision(item: Item): (d: TradeDecision)
    ensures d.action == "sell"
    ensures d.quantity == item.quantity.GetOr(0) && d.price == item.price.GetOr(0)
    ensures d.confidence == item.confidence.GetOr(5)
    ensures d.stockCode == item.stockCode.GetOr("") && d.stockName == item.stockName.GetOr("")
    ensures d.reason == item.reason.GetOr("")
  {
    TradeDecision("sell", item.stockCode.GetOr(""), item.stockName.GetOr(""),
                  item.quantity.GetOr(0), item.price.GetOr(0), item.reason.GetOr(""),
                  item.confidence.GetOr(5))
  }

  /** The decisions `analyze_for_buy` returns for `reply`: one per item, in order; none when the call failed. */
  function BuyDecisions(reply: Result<Decoded>): (ds: seq<TradeDecision>)
    ensures reply.Err? ==> ds == []
    ensures reply.Ok? ==> |ds| == |ReplyItems(reply.value)|
    ensures reply.Ok? ==> forall i :: 0 <= i < |ds| ==> ds[i] == BuyDecision(ReplyItems(reply.value)[i])
    ensures forall i :: 0 <= i < |ds| ==> ds[i].action == "buy"
  {
    if reply.Err? then []
    else
      var items := ReplyItems(reply.value);
      seq(|items|, i requires 0 <= i < |items| => BuyDecision(items[i]))
  }

  /** The decisions `analyze_for_sell` returns: none for an empty portfolio or a failed call. */
  function SellDecisions(portfolioSize: nat, reply: Result<Decoded>): (ds: seq<TradeDecision>)
    ensures portfolioSize == 0 || reply.Err? ==> ds == []
    ensures portfolioSize > 0 && reply.Ok? ==> |ds| == |ReplyItems(reply.value)|
    ensures portfolioSize > 0 && reply.Ok? ==> forall i :: 0 <= i < |ds| ==> ds[i] == SellDecision(ReplyItems(reply.value)[i])
    ensures forall i :: 0 <= i < |ds| ==> ds[i].action == "sell"
  {
    if portfolioSize == 0 || reply.Err? then []
    else
      var items := ReplyItems(reply.value);
      seq(|items|, i requires 0 <= i < |items| => SellDecision(items[i]))
  }

  /**
   * `analyze_for_buy`; `reply` is the chat call's decoded answer, or the
   * error raised while calling or decoding, which yields no decisions.
   */
  method AnalyzeForBuy(reply: Result<Decoded>) returns (decisions: seq<TradeDecision>)
    ensures decisions == BuyDecisions(reply)
  {
    decisions := [];
    if reply.Err? {
      return;
    }
    var items := ReplyItems(reply.value);
    var k := 0;
    while k < |items|
      invariant 0 <= k <= |items|
      invariant |decisions| == k
      invariant forall i :: 0 <= i < k ==> decisions[i] == BuyDecision(items[i])
    {
      decisions := decisions + [BuyDecision(items[k])];
      k := k + 1;
    }
  }

  /**
   * `analyze_for_sell`: an empty portfolio gives no decisions and the model
   * is not consulted (`consulted` is false).
   */
  method AnalyzeForSell(portfolioSize: nat, reply: Result<Decoded>) returns (consulted: bool, decisions: seq<TradeDecision>)
    ensures consulted <==> portfolioSize > 0
    ensures decisions == SellDecisions(portfolioSize, reply)
  {
    decisions := [];
    consulted := portfolioSize > 0;
    if !consulted || reply.Err? {
      return;
    }
    var items := ReplyItems(reply.value);
    var k := 0;
    while k < |items|
      invariant 0 <= k <= |items|
      invariant |decisions| == k
      invariant forall i :: 0 <= i < k ==> decisions[i] == SellDecision(items[i])
    {
      decisions := decisions + [SellDecision(items[k])];
      k := k + 1;
    }
  }

  /** `StockRecommendation`; `changeRate` is in hundredths of a percent. */
  datatype StockRecommendation = StockRecommendation(
    stockCode: string, stockName: string, currentPrice: int, change: int,
    changeRate: int, reason: string, confidence: int)

  /** The `output` of a price lookup; a missing field reads as 0. */
  datatype Quote = Quote(price: Option<int>, change: Option<int>, changeRate: Option<int>)

  /**
   * `str(item.get("stock_code", "")).strip()`: empty for a missing code,
   * otherwise the code without edge whitespace, never longer.
   */
  function CleanCode(item: Item): (c: string)
    ensures item.stockCode.None? ==> c == []
    ensures |c| <= |item.stockCode.GetOr("")|
    ensures Text.NoEdgeSpace(c)
  {
    Text.Strip(item.stockCode.GetOr(""))
  }

  /** A code worth a price lookup: six ASCII digits, so no whitespace and no sign. */
  predicate ValidCode(code: string)
    ensures ValidCode(code) ==> |code| == 6
    ensures ValidCode(code) ==> forall i :: 0 <= i < |code| ==>
              '0' <= code[i] <= '9' && !Text.IsSpace(code[i]) && code[i] != '-'
  {
    Text.IsDigitString(code) && |code| == 6
  }

  /**
   * The record appended for `item` once its price lookup answered `q`:
   * the cleaned code, and the source's defaults for whatever is missing
   * (empty name and reason, zero price and change, confidence 5).
   */
  function Recommendation(item: Item, q: Quote): (r: StockRecommendation)
    ensures r.stockCode == CleanCode(item)
    ensures item.stockName.None? ==> r.stockName == ""
    ensures item.reason.None? ==> r.reason == ""
    ensures item.confidence.None? ==> r.confidence == 5
    ensures q.price.None? ==> r.currentPrice == 0
    ensures q.change.None? ==> r.change == 0
    ensures q.changeRate.None? ==> r.changeRate == 0
    ensures item.stockName.Some? ==> r.stockName == item.stockName.value
    ensures item.confidence.Some? ==> r.confidence == item.confidence.value
    ensures q.price.Some? ==> r.currentPrice == q.price.value
    ensures item.reason.Some? ==> r.reason == item.reason.value
    ensures q.change.Some? ==> r.change == q.change.value
    ensures q.changeRate.Some? ==> r.changeRate == q.changeRate.value
  {
    StockRecommendation(CleanCode(item), item.stockName.GetOr(""), q.price.GetOr(0),
                        q.change.GetOr(0), q.changeRate.GetOr(0), item.reason.GetOr(""),
                        item.confidence.GetOr(5))
  }

  /** `rec` is what the loop appends for `item` once its price lookup succeeded. */
  predicate FromItem(rec: StockRecommendation, item: Item, quote: string -> Result<Quote>) {
    quote(CleanCode(item)).Ok? && rec == Recommendation(item, quote(CleanCode(item)).value)
  }

  /**
   * The recommendations made of `items`, in order: items with an invalid
   * code are skipped, and so are items whose price lookup raises.
   */
  function Recommended(items: seq<Item>, quote: string -> Result<Quote>): (r: seq<StockRecommendation>)
    ensures |r| <= |items|
    ensures forall rec :: rec in r ==> ValidCode(rec.stockCode)
    decreases |items|
  {
    if items == [] then []
    else
      var rest := Recommended(items[..|items| - 1], quote);
      var last := items[|items| - 1];
      var code := CleanCode(last);
      if ValidCode(code) && quote(code).Ok? then
        var rec := Recommendation(last, quote(code).value);
        AppendIfMembers(rest + [rec], rest, rec, true);
        rest + [rec]
      else rest
  }

  /** One more item extends the recommendations by at most that item's recommendation. */
  lemma RecommendedStep(items: seq<Item>, k: nat, quote: string -> Result<Quote>)
    requires k < |items|
    ensures var code := CleanCode(items[k]);
            Recommended(items[..k + 1], quote)
            == if ValidCode(code) && quote(code).Ok? then Recommended(items[..k], quote) + [Recommendation(items[k], quote(code).value)]
               else Recommended(items[..k], quote)
  {
    assert items[..k + 1][..k] == items[..k];
  }

  /** Every recommendation is the one made of some item whose price lookup succeeded. */
  lemma {:induction false} RecommendedFromItems(items: seq<Item>, quote: string -> Result<Quote>)
    ensures forall rec :: rec in Recommended(items, quote) ==> exists i :: 0 <= i < |items| && FromItem(rec, items[i], quote)
    decreases |items|
  {
    if items != [] {
      var init := items[..|items| - 1];
      RecommendedFromItems(init, quote);
      forall rec | rec in Recommended(items, quote)
        ensures exists i :: 0 <= i < |items| && FromItem(rec, items[i], quote)
      {
        var kept := Recommended(init, quote);
        var last := items[|items| - 1];
        if rec in kept {
          var i :| 0 <= i < |init| && FromItem(rec, init[i], quote);
          assert init[i] == items[i];
        } else {
          var code := CleanCode(last);
          assert ValidCode(code) && quote(code).Ok?;
          AppendIfMembers(Recommended(items, quote), kept, Recommendation(last, quote(code).value), true);
          assert FromItem(rec, last, quote);
        }
      }
    }
  }

  /** The item has a valid code and its price lookup succeeded. */
  predicate Quotable(item: Item, quote: string -> Result<Quote>) {
    ValidCode(CleanCode(item)) && quote(CleanCode(item)).Ok?
  }

  /** Every item with a valid code whose price lookup succeeded yields its recommendation. */
  lemma {:induction false} RecommendedKeeps(items: seq<Item>, quote: string -> Result<Quote>)
    ensures forall i :: 0 <= i < |items| && Quotable(items[i], quote)
              ==> Recommendation(items[i], quote(CleanCode(items[i])).value) in Recommended(items, quote)
    decreases |items|
  {
    if items != [] {
      var k := |items| - 1;
      var init := items[..k];
      RecommendedKeeps(init, quote);
      var whole := Recommended(items, quote);
      var kept := Recommended(init, quote);
      if Quotable(items[k], quote) {
        AppendIfMembers(whole, kept, Recommendation(items[k], quote(CleanCode(items[k])).value), true);
      } else {
        assert whole == kept;
      }
      forall i | 0 <= i < |items| && Quotable(items[i], quote)
        ensures Recommendation(items[i], quote(CleanCode(items[i])).value) in whole
      {
        if i < k {
          assert init[i] == items[i];
          assert Recommendation(items[i], quote(CleanCode(items[i])).value) in kept;
        } else {
          assert i == k;
        }
      }
    }
  }

  /**
   * The loop of `get_daily_recommendations` over the first three items of
   * the reply; `quote` stands for `get_price` on a code, and a failed chat
   * call or decoding gives no recommendations.
   */
  method GetDailyRecommendations(reply: Result<Decoded>, quote: string -> Result<Quote>)
    returns (recommendations: seq<StockRecommendation>)
    ensures reply.Err? ==> recommendations == []
    ensures reply.Ok? ==> recommendations == Recommended(SliceTo(ReplyItems(reply.value), 3), quote)
    ensures |recommendations| <= 3
    ensures forall rec :: rec in recommendations ==> ValidCode(rec.stockCode)
  {
    recommendations := [];
    if reply.Err? {
      return;
    }
    var items := SliceTo(ReplyItems(reply.value), 3);
    var k := 0;
    while k < |items|
      invariant 0 <= k <= |items|
      invariant recommendations == Recommended(items[..k], quote)
    {
      var code := CleanCode(items[k]);
      RecommendedStep(items, k, quote);
      if ValidCode(code) {
        var q := quote(code);
        if q.Ok? {
          recommendations := recommendations + [Recommendation(items[k], q.value)];
        }
      }
      k := k + 1;
    }
    assert items[..k] == items;
  }
}
