/**
 * The daily trading job (`src/scheduler/daily_job.py`): sells, then at most
 * `max_buy_per_day` buys, each trade notified once, and a closing report,
 * all under a halt flag. Balance replies, the two model replies and the
 * order replies are parameters; chat notifications are returned as events.
 */
module DailyJob {
  import opened Base
  import opened Broker
  import LlmAnalyzer

  /** `RISK_CONFIG["max_buy_per_day"]`. */
  const MaxBuyPerDay := 3

  /** The chat notifications of a run, in order. */
  datatype Event =
    | SystemStart
    | NewsSummary
    | TradeExecuted(decision: LlmAnalyzer.TradeDecision, success: bool, result: Option<ApiData>)
    | DailyReport(summary: seq<(string, int)>, totalValue: int, profit: int, profitRate: real)

  /** `_get_portfolio`: the holdings of a balance reply, or none when the lookup raised. */
  function Portfolio(balance: Result<BalanceData>): (p: seq<Holding>)
    ensures balance.Err? ==> p == []
    ensures balance.Ok? ==> p == balance.value.holdings
  {
    match balance
    case Err(_) => []
    case Ok(b) => b.holdings
  }

  /** `_get_available_budget`: the available cash, or 0 on any failure. */
  function AvailableBudget(balance: Result<BalanceData>): (n: int)
    ensures CashFrom(balance).Ok? ==> n == CashFrom(balance).value
    ensures CashFrom(balance).Err? ==> n == 0
  {
    match CashFrom(balance)
    case Ok(c) => c
    case Err(_) => 0
  }

  /** `_execute_trade`: a buy goes to `buy_stock`, anything else to `sell_stock`, and one notification follows. */
  function ExecuteTrade(d: LlmAnalyzer.TradeDecision, outcome: CallOutcome): (r: (OrderCall, Event))
    ensures d.action == "buy" ==> r.0 == DomesticBuy(d.stockCode, d.quantity, d.price)
    ensures d.action != "buy" ==> r.0 == DomesticSell(d.stockCode, d.quantity, d.price)
    ensures r.1.TradeExecuted? && r.1.decision == d
    ensures r.1.success <==> outcome.Replied? && Succeeded(outcome.data)
    ensures outcome.Raised? ==> r.1.result.None?
    ensures outcome.Replied? ==> r.1.result == Some(outcome.data)
  {
    var call := if d.action == "buy" then DomesticBuy(d.stockCode, d.quantity, d.price)
                else DomesticSell(d.stockCode, d.quantity, d.price);
    match outcome
    case Raised(_) => (call, TradeExecuted(d, false, None))
    case Replied(data) => (call, TradeExecuted(d, data.rtCd == Some("0"), Some(data)))
  }

  /**
   * `sum(p["profit_amount"] for p in portfolio)`: zero for no holdings,
   * never negative when no holding lost, never positive when none gained.
   */
  function ProfitSum(ps: seq<Holding>): (r: int)
    ensures ps == [] ==> r == 0
    ensures (forall i :: 0 <= i < |ps| ==> ps[i].profitAmount >= 0) ==> r >= 0
    ensures (forall i :: 0 <= i < |ps| ==> ps[i].profitAmount <= 0) ==> r <= 0
    decreases |ps|
  {
    if ps == [] then 0 else ProfitSum(ps[..|ps| - 1]) + ps[|ps| - 1].profitAmount
  }

  /** The sum over two parts of a portfolio is the sum of their sums. */
  lemma {:induction false} ProfitSumAppend(a: seq<Holding>, b: seq<Holding>)
    ensures ProfitSum(a + b) == ProfitSum(a) + ProfitSum(b)
    decreases |b|
  {
    if b == [] {
      assert a + b == a;
    } else {
      assert (a + b)[..|a + b| - 1] == a + b[..|b| - 1];
      ProfitSumAppend(a, b[..|b| - 1]);
    }
  }

  /** `daily_profit / total_value * 100`, or 0 when the total is not positive. */
  function ProfitRate(profit: int, total: int): (r: real)
    ensures total <= 0 ==> r == 0.0
    ensures total > 0 ==> r * (total as real) == (profit as real) * 100.0
    ensures total > 0 ==> (r > 0.0 <==> profit > 0) && (r < 0.0 <==> profit < 0)
  {
    if total > 0 then (profit as real) / (total as real) * 100.0 else 0.0
  }

  /**
   * `_send_daily_report`: `portfolioReply` is read through `_get_portfolio`
   * and `totalReply` gives `tot_evlu_amt`. A raising lookup sends nothing.
   */
  function Report(portfolioReply: Result<BalanceData>, totalReply: Result<BalanceData>): (r: seq<Event>)
    ensures totalReply.Err? || (totalReply.Ok? && FirstSummary(totalReply.value).Err?) ==> r == []
    ensures totalReply.Ok? && FirstSummary(totalReply.value).Ok? ==>
              var total := FirstSummary(totalReply.value).value.totalValue.GetOr(0);
              var p := Portfolio(portfolioReply);
              && |r| == 1 && r[0].DailyReport?
              && r[0].totalValue == total && r[0].profit == ProfitSum(p)
              && r[0].profitRate == ProfitRate(ProfitSum(p), total)
              && |r[0].summary| == |p|
              && forall i :: 0 <= i < |p| ==> r[0].summary[i] == (p[i].name, p[i].profitRate)
  {
    var p := Portfolio(portfolioReply);
    match totalReply
    case Err(_) => []
    case Ok(b) =>
      match FirstSummary(b)
      case Err(_) => []
      case Ok(s) =>
        var total := s.totalValue.GetOr(0);
        var profit := ProfitSum(p);
        [DailyReport(seq(|p|, i requires 0 <= i < |p| => (p[i].name, p[i].profitRate)), total, profit, ProfitRate(profit, total))]
  }

  /** The report's total is `tot_evlu_amt` of the first `output2` record, or 0 without one. */
  lemma ReportTotal(portfolioReply: Result<BalanceData>, b: BalanceData)
    requires b.output2.Some? && b.output2.value != []
    ensures var r := Report(portfolioReply, Ok(b));
            |r| == 1 && r[0].totalValue == b.output2.value[0].totalValue.GetOr(0)
  {
  }

  /**
   * `calls` and `notices` are the orders and notifications of the first
   * `|calls|` decisions of `ds`, the i-th answered by `orders(start + i)`.
   */
  predicate Executes(calls: seq<OrderCall>, notices: seq<Event>, ds: seq<LlmAnalyzer.TradeDecision>,
                     start: nat, orders: nat -> CallOutcome)
  {
    && |calls| == |notices| <= |ds|
    && (forall i :: 0 <= i < |calls| ==> calls[i] == ExecuteTrade(ds[i], orders(start + i)).0)
    && (forall i :: 0 <= i < |calls| ==> notices[i] == ExecuteTrade(ds[i], orders(start + i)).1)
  }

  /** The sell decisions of a run: the model's reply on the portfolio of the first balance lookup. */
  function Sells(balances: nat -> Result<BalanceData>, sellReply: Result<LlmAnalyzer.Decoded>): (ds: seq<LlmAnalyzer.TradeDecision>)
    ensures balances(0).Err? || sellReply.Err? || Portfolio(balances(0)) == [] ==> ds == []
    ensures Portfolio(balances(0)) != [] && sellReply.Ok? ==>
              |ds| == |LlmAnalyzer.ReplyItems(sellReply.value)|
              && forall i :: 0 <= i < |ds| ==> ds[i] == LlmAnalyzer.SellDecision(LlmAnalyzer.ReplyItems(sellReply.value)[i])
    ensures forall i :: 0 <= i < |ds| ==> ds[i].action == "sell"
  {
    LlmAnalyzer.SellDecisions(|Portfolio(balances(0))|, sellReply)
  }

  /** The buy decisions a run may place: the first `max_buy_per_day` of the model's reply. */
  function Buys(buyReply: Result<LlmAnalyzer.Decoded>): (ds: seq<LlmAnalyzer.TradeDecision>)
    ensures |ds| <= MaxBuyPerDay
    ensures ds == SliceTo(LlmAnalyzer.BuyDecisions(buyReply), MaxBuyPerDay)
  {
    SliceTo(LlmAnalyzer.BuyDecisions(buyReply), MaxBuyPerDay)
  }

  /** Where the trade notices and the report sit in a run's event list. */
  lemma EventSlices(notices: seq<Event>, report: seq<Event>, k: nat)
    requires k <= |notices|
    ensures var events := [SystemStart, NewsSummary] + notices + report;
            && events[2..2 + k] == notices[..k]
            && events[2 + k..2 + |notices|] == notices[k..]
            && events[2 + |notices|..] == report
  {
    var events := [SystemStart, NewsSummary] + notices + report;
    assert events[2..2 + |notices|] == notices;
  }

  class DailyTradingJob {
    var isStopped: bool

    /** A new job is not stopped. */
    constructor ()
      ensures !isStopped
    {
      isStopped := false;
    }

    method StopTrading()
      modifies this
      ensures isStopped
    {
      isStopped := true;
    }

    method ResumeTrading()
      modifies this
      ensures !isStopped
    {
      isStopped := false;
    }

    /**
     * One of the two trade loops of `run`: before each decision the halt
     * flag is read, and the decision is executed only while it is clear.
     * `start` orders were placed before the loop; `stopAt == Some(n)` means
     * `stop_trading` is called from elsewhere once `n` orders have been placed.
     */
    method TradeLoop(ds: seq<LlmAnalyzer.TradeDecision>, start: nat, orders: nat -> CallOutcome, stopAt: Option<nat>)
      returns (calls: seq<OrderCall>, notices: seq<Event>)
      modifies this
      ensures Executes(calls, notices, ds, start, orders)
      ensures old(isStopped) ==> calls == [] && isStopped
      ensures !old(isStopped) && stopAt.Some? && start <= stopAt.value ==> |calls| == Min(stopAt.value - start, |ds|)
      ensures !old(isStopped) && !(stopAt.Some? && start <= stopAt.value) ==> |calls| == |ds|
      ensures isStopped == (old(isStopped) || (stopAt.Some? && start <= stopAt.value < start + |ds|))
    {
      calls, notices := [], [];
      var k := 0;
      while k < |ds|
        invariant 0 <= k <= |ds|
        invariant |calls| == k && |notices| == k
        invariant Executes(calls, notices, ds, start, orders)
        invariant isStopped == old(isStopped)
        invariant old(isStopped) ==> k == 0
        invariant stopAt.Some? && start <= stopAt.value ==> start + k <= stopAt.value
      {
        if stopAt == Some(start + k) {
          isStopped := true;
        }
        if isStopped {
          break;
        }
        var t := ExecuteTrade(ds[k], orders(start + k));
        calls := calls + [t.0];
        notices := notices + [t.1];
        k := k + 1;
      }
    }

    /**
     * The two trade loops of `run`: every sell decision, then every buy
     * decision, under the one halt flag. `notices` holds one notification
     * per order placed, in order.
     */
    method Trades(sells: seq<LlmAnalyzer.TradeDecision>, buys: seq<LlmAnalyzer.TradeDecision>,
                  orders: nat -> CallOutcome, stopAt: Option<nat>)
      returns (calls: seq<OrderCall>, soldCount: nat, notices: seq<Event>)
      modifies this
      ensures soldCount <= |calls| == |notices| <= soldCount + |buys|
      ensures Executes(calls[..soldCount], notices[..soldCount], sells, 0, orders)
      ensures Executes(calls[soldCount..], notices[soldCount..], buys, soldCount, orders)
      ensures old(isStopped) ==> calls == []
      ensures !old(isStopped) && stopAt.None? ==> soldCount == |sells| && |calls| == |sells| + |buys|
      ensures !old(isStopped) && stopAt.Some? ==>
                soldCount == Min(stopAt.value, |sells|) && |calls| == Min(stopAt.value, |sells| + |buys|)
      ensures isStopped == (old(isStopped) || (stopAt.Some? && stopAt.value < |sells| + |buys|))
    {
      var sold, soldNotices := TradeLoop(sells, 0, orders, stopAt);
      soldCount := |sold|;
      var bought, boughtNotices := TradeLoop(buys, soldCount, orders, stopAt);
      calls := sold + bought;
      notices := soldNotices + boughtNotices;
      assert calls[..soldCount] == sold && notices[..soldCount] == soldNotices;
      assert calls[soldCount..] == bought && notices[soldCount..] == boughtNotices;
    }

    /**
     * `run`. `balances(k)` answers the k-th balance lookup (portfolio,
     * budget, then the report's two) and `orders(k)` the k-th order placed.
     * The budget (`AvailableBudget(balances(1))`) only enters the buy
     * prompt, so it has no effect on the orders placed here.
     */
    method Run(balances: nat -> Result<BalanceData>, sellReply: Result<LlmAnalyzer.Decoded>,
               buyReply: Result<LlmAnalyzer.Decoded>, orders: nat -> CallOutcome, stopAt: Option<nat>)
      returns (calls: seq<OrderCall>, soldCount: nat, events: seq<Event>)
      modifies this
      ensures soldCount <= |calls| && |events| == 2 + |calls| + |Report(balances(2), balances(3))|
      ensures Executes(calls[..soldCount], events[2..2 + soldCount], Sells(balances, sellReply), 0, orders)
      ensures Executes(calls[soldCount..], events[2 + soldCount..2 + |calls|], Buys(buyReply), soldCount, orders)
      ensures old(isStopped) ==> calls == []
      ensures !old(isStopped) && stopAt.None? ==>
                soldCount == |Sells(balances, sellReply)| && |calls| == |Sells(balances, sellReply)| + |Buys(buyReply)|
      ensures !old(isStopped) && stopAt.Some? ==>
                soldCount == Min(stopAt.value, |Sells(balances, sellReply)|)
                && |calls| == Min(stopAt.value, |Sells(balances, sellReply)| + |Buys(buyReply)|)
      ensures isStopped == (old(isStopped) || (stopAt.Some? && stopAt.value < |Sells(balances, sellReply)| + |Buys(buyReply)|))
      ensures events[0] == SystemStart && events[1] == NewsSummary
      ensures events[2 + |calls|..] == Report(balances(2), balances(3))
      ensures |calls| <= soldCount + MaxBuyPerDay
    {
      var sells, buys := Decide(balances, sellReply, buyReply);
      var notices;
      calls, soldCount, notices := Trades(sells, buys, orders, stopAt);
      var report := Report(balances(2), balances(3));
      events := [SystemStart, NewsSummary] + notices + report;
      EventSlices(notices, report, soldCount);
    }

    /**
     * The two analyses of a run: the sell decisions for the current
     * portfolio, and the buy decisions cut to `max_buy_per_day`.
     */
    method Decide(balances: nat -> Result<BalanceData>, sellReply: Result<LlmAnalyzer.Decoded>,
                  buyReply: Result<LlmAnalyzer.Decoded>)
      returns (sells: seq<LlmAnalyzer.TradeDecision>, buys: seq<LlmAnalyzer.TradeDecision>)
      ensures sells == Sells(balances, sellReply)
      ensures buys == Buys(buyReply) && |buys| <= MaxBuyPerDay
    {
      var portfolio := Portfolio(balances(0));
      var consulted;
      consulted, sells := LlmAnalyzer.AnalyzeForSell(|portfolio|, sellReply);
      var allBuys := LlmAnalyzer.AnalyzeForBuy(buyReply);
      buys := SliceTo(allBuys, MaxBuyPerDay);
    }
  }
}
