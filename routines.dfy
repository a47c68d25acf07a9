/**
 * The morning (Korean market) and evening (US market) routines
 * (`src/scheduler/routines.py`): the recommendations of the day become
 * bounded-budget buy orders scheduled for the market open, and holdings
 * whose profit rate left the band become sell suggestions. The
 * recommendations, the balance replies, the listed-company lookup behind
 * stock search and the clock are parameters; webhook messages are left out.
 */
module Routines {
  import opened Base
  import opened Broker
  import LlmAnalyzer
  import StockSearch

  /** The floor of the per-stock budget in the morning, and the budget when the balance is unknown. */
  const MinBudgetPerStock := 100000

  /** The per-stock budget in the evening, in dollars. */
  const BudgetUsd := 500

  /** Only the first three recommendations are announced and ordered. */
  const MaxRecommendations := 3

  /** The sell band in hundredths of a percent: above 5.0 % or below -3.0 %. */
  const TakeProfitRate := 500
  const StopLossRate := -300

  /** One microsecond-timestamp second, and one day. */
  const SecondUs := 1000000
  const DayUs := 86400000000

  /** An entry of `orders_to_schedule`; `exchange` is present only on US orders. */
  datatype ScheduledOrder = ScheduledOrder(code: string, qty: int, name: string, exchange: Option<string>, price: int)

  /** A job handed to the scheduler: `execute_buy_orders(orders, market)` at `runAt`. */
  datatype Job = Job(runAt: nat, orders: seq<ScheduledOrder>, market: string)

  /** What one routine produced: the announced recommendations, the orders, the job, the sell suggestions. */
  datatype RoutineOutcome = RoutineOutcome(
    announced: seq<LlmAnalyzer.StockRecommendation>, orders: seq<ScheduledOrder>,
    job: Option<Job>, sellCandidates: seq<Holding>)

  /**
   * `budget_per_stock`: half the cash split three ways, truncated, and at
   * least 100000; 100000 when the balance or its cash cannot be read.
   */
  function BudgetPerStock(balance: Result<BalanceData>): (b: int)
    ensures b >= MinBudgetPerStock
    ensures CashFrom(balance).Err? ==> b == MinBudgetPerStock
    ensures CashFrom(balance).Ok? && CashFrom(balance).value < 6 * MinBudgetPerStock ==> b == MinBudgetPerStock
    ensures (CashFrom(balance).Ok? && CashFrom(balance).value >= 6 * MinBudgetPerStock)
              ==> 6 * b <= CashFrom(balance).value < 6 * (b + 1)
  {
    match CashFrom(balance)
    case Err(_) => MinBudgetPerStock
    case Ok(cash) =>
      var share := TruncDiv(cash, 6);
      if share < MinBudgetPerStock then MinBudgetPerStock else share
  }

  /** The quantity `int(budget / price)` for a positive price. */
  function Quantity(budget: int, price: int): (q: int)
    requires price > 0
    ensures budget >= 0 ==> q >= 0 && q * price <= budget < (q + 1) * price
    ensures budget >= 0 ==> (q > 0 <==> price <= budget)
  {
    var q := TruncDiv(budget, price);
    assert budget >= 0 ==> q == budget / price;
    q
  }

  /** The order the morning loop schedules for one recommendation: a market order (price 0). */
  function KrOrder(rec: LlmAnalyzer.StockRecommendation, budget: int): (o: Option<ScheduledOrder>)
    ensures budget >= 0 ==> (o.Some? <==> 0 < rec.currentPrice <= budget)
    ensures o.Some? ==> o.value.code == rec.stockCode && o.value.name == rec.stockName
    ensures o.Some? ==> o.value.price == 0 && o.value.exchange.None? && o.value.qty >= 1
    ensures o.Some? && budget >= 0 ==> o.value.qty * rec.currentPrice <= budget < (o.value.qty + 1) * rec.currentPrice
  {
    if rec.currentPrice > 0 then
      var qty := Quantity(budget, rec.currentPrice);
      if qty > 0 then Some(ScheduledOrder(rec.stockCode, qty, rec.stockName, None, 0)) else None
    else None
  }

  /** The exchange the evening loop uses: the search result's, else NASDAQ. */
  function ExchangeFor(code: string, listed: string -> Option<StockSearch.StockInfo>): (e: string)
    ensures StockSearch.SearchStock(code, listed).None? ==> e == "NAS"
    ensures StockSearch.SearchStock(code, listed).Some? ==> e == StockSearch.SearchStock(code, listed).value.exchange.GetOr("NAS")
  {
    match StockSearch.SearchStock(code, listed)
    case None => "NAS"
    case Some(info) => info.exchange.GetOr("NAS")
  }

  /** The order the evening loop schedules for one recommendation: a limit order at the current price. */
  function UsOrder(rec: LlmAnalyzer.StockRecommendation, exchange: string): (o: Option<ScheduledOrder>)
    ensures o.Some? <==> 0 < rec.currentPrice <= BudgetUsd
    ensures o.Some? ==> o.value.code == rec.stockCode && o.value.name == rec.stockName
    ensures o.Some? ==> o.value.price == rec.currentPrice && o.value.exchange == Some(exchange) && o.value.qty >= 1
    ensures o.Some? ==> o.value.qty * rec.currentPrice <= BudgetUsd < (o.value.qty + 1) * rec.currentPrice
  {
    if rec.currentPrice > 0 then
      var qty := Quantity(BudgetUsd, rec.currentPrice);
      if qty > 0 then Some(ScheduledOrder(rec.stockCode, qty, rec.stockName, Some(exchange), rec.currentPrice)) else None
    else None
  }

  /** The orders a loop over `recs` appends, in order, with `order` deciding each recommendation. */
  function Planned(recs: seq<LlmAnalyzer.StockRecommendation>, order: LlmAnalyzer.StockRecommendation -> Option<ScheduledOrder>)
    : (os: seq<ScheduledOrder>)
    ensures |os| <= |recs|
    decreases |recs|
  {
    if recs == [] then []
    else
      var last := order(recs[|recs| - 1]);
      Planned(recs[..|recs| - 1], order) + (if last.Some? then [last.value] else [])
  }

  /** `o` is the order of the recommendation at position `i`. */
  predicate PlannedAt(recs: seq<LlmAnalyzer.StockRecommendation>, order: LlmAnalyzer.StockRecommendation -> Option<ScheduledOrder>,
                      o: ScheduledOrder, i: int)
  {
    0 <= i < |recs| && order(recs[i]) == Some(o)
  }

  /** Every planned order is the order of one of the recommendations. */
  lemma {:induction false} PlannedFromRecommendations(recs: seq<LlmAnalyzer.StockRecommendation>,
                                                      order: LlmAnalyzer.StockRecommendation -> Option<ScheduledOrder>)
    ensures forall o :: o in Planned(recs, order) ==> exists i :: PlannedAt(recs, order, o, i)
    decreases |recs|
  {
    if recs != [] {
      var init := recs[..|recs| - 1];
      PlannedFromRecommendations(init, order);
      forall o | o in Planned(recs, order)
        ensures exists i :: PlannedAt(recs, order, o, i)
      {
        if o in Planned(init, order) {
          var i :| PlannedAt(init, order, o, i);
          assert PlannedAt(recs, order, o, i);
        } else {
          assert PlannedAt(recs, order, o, |recs| - 1);
        }
      }
    }
  }

  /** Every recommendation that yields an order has that order in the plan. */
  lemma {:induction false} PlannedKeeps(recs: seq<LlmAnalyzer.StockRecommendation>,
                                        order: LlmAnalyzer.StockRecommendation -> Option<ScheduledOrder>)
    ensures forall i :: 0 <= i < |recs| && order(recs[i]).Some? ==> order(recs[i]).value in Planned(recs, order)
    decreases |recs|
  {
    if recs != [] {
      var init := recs[..|recs| - 1];
      PlannedKeeps(init, order);
      forall i | 0 <= i < |recs| && order(recs[i]).Some?
        ensures order(recs[i]).value in Planned(recs, order)
      {
        if i < |init| {
          assert init[i] == recs[i];
        }
      }
    }
  }

  /** When every recommendation yields an order, the plan is exactly those orders, position by position. */
  lemma {:induction false} PlannedAll(recs: seq<LlmAnalyzer.StockRecommendation>,
                                      order: LlmAnalyzer.StockRecommendation -> Option<ScheduledOrder>)
    requires forall i :: 0 <= i < |recs| ==> order(recs[i]).Some?
    ensures |Planned(recs, order)| == |recs|
    ensures forall i :: 0 <= i < |recs| ==> Some(Planned(recs, order)[i]) == order(recs[i])
    decreases |recs|
  {
    if recs != [] {
      PlannedAll(recs[..|recs| - 1], order);
    }
  }

  /**
   * The loop over the first three recommendations: each is announced, and
   * `order` decides whether it is scheduled.
   */
  method PlanOrders(recs: seq<LlmAnalyzer.StockRecommendation>, order: LlmAnalyzer.StockRecommendation -> Option<ScheduledOrder>)
    returns (announced: seq<LlmAnalyzer.StockRecommendation>, orders: seq<ScheduledOrder>)
    ensures announced == SliceTo(recs, MaxRecommendations)
    ensures orders == Planned(announced, order)
    ensures |orders| <= MaxRecommendations
  {
    var top := SliceTo(recs, MaxRecommendations);
    announced, orders := [], [];
    var k := 0;
    while k < |top|
      invariant 0 <= k <= |top|
      invariant announced == top[..k]
      invariant orders == Planned(top[..k], order)
    {
      assert top[..k + 1][..k] == top[..k];
      announced := announced + [top[k]];
      var o := order(top[k]);
      if o.Some? {
        orders := orders + [o.value];
      }
      k := k + 1;
    }
    assert top[..k] == top;
  }

  /**
   * A holding outside the band is suggested for sale: one whose profit
   * rate lies within the band, edges included, is kept.
   */
  predicate IsSellCandidate(h: Holding)
    ensures IsSellCandidate(h) <==> !(StopLossRate <= h.profitRate <= TakeProfitRate)
    ensures IsSellCandidate(h) ==> h.profitRate != 0
  {
    h.profitRate > TakeProfitRate || h.profitRate < StopLossRate
  }

  /** The loop collecting `sell_candidates`: exactly the holdings outside the band, in order. */
  method SellCandidates(holdings: seq<Holding>) returns (candidates: seq<Holding>)
    ensures candidates == Filter(holdings, IsSellCandidate)
    ensures forall h :: h in candidates <==> h in holdings && IsSellCandidate(h)
  {
    candidates := [];
    var k := 0;
    while k < |holdings|
      invariant 0 <= k <= |holdings|
      invariant candidates == Filter(holdings[..k], IsSellCandidate)
    {
      FilterPrefixStep(holdings, k, IsSellCandidate);
      if IsSellCandidate(holdings[k]) {
        candidates := candidates + [holdings[k]];
      }
      k := k + 1;
    }
    assert holdings[..k] == holdings;
    FilterMembers(holdings, IsSellCandidate);
  }

  /** `datetime.replace(hour, minute, second)` on a microsecond timestamp: same day, same microseconds. */
  function ReplaceTime(t: nat, hour: nat, minute: nat, second: nat): (r: nat)
    requires hour < 24 && minute < 60 && second < 60
    ensures r / DayUs == t / DayUs
    ensures r % DayUs == ((hour * 60 + minute) * 60 + second) * SecondUs + t % SecondUs
  {
    var secs := (hour * 60 + minute) * 60 + second;
    var r := t - t % DayUs + secs * SecondUs + t % SecondUs;
    assert t - t % DayUs == (t / DayUs) * DayUs;
    assert 0 <= secs * SecondUs + t % SecondUs < DayUs;
    r
  }

  /**
   * The run date of a scheduled job: today at the given time, or ten
   * seconds after now when that time has passed. `clock(k)` is the k-th
   * reading of `datetime.now()`.
   */
  function RunDate(clock: nat -> nat, hour: nat, minute: nat, second: nat): (r: nat)
    requires hour < 24 && minute < 60 && second < 60
    ensures ReplaceTime(clock(0), hour, minute, second) >= clock(1) ==> r == ReplaceTime(clock(0), hour, minute, second)
    ensures ReplaceTime(clock(0), hour, minute, second) < clock(1) ==> r == clock(2) + 10 * SecondUs
    ensures clock(1) <= clock(2) ==> r >= clock(1)
  {
    var target := ReplaceTime(clock(0), hour, minute, second);
    if target < clock(1) then clock(2) + 10 * SecondUs else target
  }

  /** A job is scheduled only with a scheduler and at least one order. */
  function Schedule(hasScheduler: bool, orders: seq<ScheduledOrder>, runAt: nat, market: string): (j: Option<Job>)
    ensures j.Some? <==> hasScheduler && orders != []
    ensures j.Some? ==> j.value.orders == orders && j.value.runAt == runAt && j.value.market == market
  {
    if hasScheduler && orders != [] then Some(Job(runAt, orders, market)) else None
  }

  /**
   * `run_morning_routine`: `recs` are the Korean recommendations and
   * `balance` the balance lookup; orders are scheduled for 09:00:05.
   */
  method MorningRoutine(recs: seq<LlmAnalyzer.StockRecommendation>, balance: Result<BalanceData>,
                        hasScheduler: bool, clock: nat -> nat)
    returns (r: RoutineOutcome)
    ensures var budget := BudgetPerStock(balance);
            && r.announced == SliceTo(recs, MaxRecommendations)
            && r.orders == Planned(r.announced, (rec: LlmAnalyzer.StockRecommendation) => KrOrder(rec, budget))
    ensures r.job == Schedule(hasScheduler, r.orders, RunDate(clock, 9, 0, 5), "KR")
    ensures balance.Err? ==> r.sellCandidates == []
    ensures balance.Ok? ==> r.sellCandidates == Filter(balance.value.holdings, IsSellCandidate)
  {
    var budget := BudgetPerStock(balance);
    var announced, orders := PlanOrders(recs, (rec: LlmAnalyzer.StockRecommendation) => KrOrder(rec, budget));
    var job := Schedule(hasScheduler, orders, RunDate(clock, 9, 0, 5), "KR");
    var candidates := [];
    if balance.Ok? {
      candidates := SellCandidates(balance.value.holdings);
    }
    r := RoutineOutcome(announced, orders, job, candidates);
  }

  /**
   * `run_evening_routine`: `recs` are the US recommendations, `listed` the
   * lookup behind stock search and `overseas` the overseas balance lookup,
   * whose failure only skips the sell suggestions; orders are scheduled for 23:30:00.
   */
  method EveningRoutine(recs: seq<LlmAnalyzer.StockRecommendation>, listed: string -> Option<StockSearch.StockInfo>,
                        overseas: Result<BalanceData>, hasScheduler: bool, clock: nat -> nat)
    returns (r: RoutineOutcome)
    ensures r.announced == SliceTo(recs, MaxRecommendations)
    ensures r.orders == Planned(r.announced, (rec: LlmAnalyzer.StockRecommendation) => UsOrder(rec, ExchangeFor(rec.stockCode, listed)))
    ensures r.job == Schedule(hasScheduler, r.orders, RunDate(clock, 23, 30, 0), "US")
    ensures overseas.Err? ==> r.sellCandidates == []
    ensures overseas.Ok? ==> r.sellCandidates == Filter(overseas.value.holdings, IsSellCandidate)
  {
    var announced, orders := PlanOrders(recs, (rec: LlmAnalyzer.StockRecommendation) => UsOrder(rec, ExchangeFor(rec.stockCode, listed)));
    var job := Schedule(hasScheduler, orders, RunDate(clock, 23, 30, 0), "US");
    var candidates := [];
    if overseas.Ok? {
      candidates := SellCandidates(overseas.value.holdings);
    }
    r := RoutineOutcome(announced, orders, job, candidates);
  }

  /** The call `execute_buy_orders` makes for one order: Korean orders at market price, the rest overseas. */
  function OrderFor(o: ScheduledOrder, market: string): (c: OrderCall)
    ensures market == "KR" ==> c == DomesticBuy(o.code, o.qty, 0)
    ensures market != "KR" ==> c == OverseasBuy(o.exchange.GetOr("NAS"), o.code, o.qty, o.price)
  {
    if market == "KR" then DomesticBuy(o.code, o.qty, 0) else OverseasBuy(o.exchange.GetOr("NAS"), o.code, o.qty, o.price)
  }

  /** The message after one order: filled, rejected with the broker's message, or only a logged error. */
  datatype BuyNotice = Filled(market: string, name: string, code: string, qty: int) | Rejected(name: string, msg: Option<string>) | Logged(error: string)

  function NoticeFor(o: ScheduledOrder, market: string, outcome: CallOutcome): (n: BuyNotice)
    ensures n.Filled? <==> outcome.Replied? && Succeeded(outcome.data)
    ensures n.Filled? ==> n == Filled(market, o.name, o.code, o.qty)
    ensures n.Rejected? <==> outcome.Replied? && !Succeeded(outcome.data)
    ensures n.Rejected? ==> n == Rejected(o.name, outcome.data.msg1)
    ensures n.Logged? <==> outcome.Raised?
  {
    match outcome
    case Raised(e) => Logged(e)
    case Replied(data) =>
      if data.rtCd == Some("0") then Filled(market, o.name, o.code, o.qty) else Rejected(o.name, data.msg1)
  }

  /**
   * `execute_buy_orders`: every order is placed, in order, whatever became
   * of the ones before it. `outcomes(i)` is the reply to the i-th order.
   */
  method ExecuteBuyOrders(orders: seq<ScheduledOrder>, market: string, outcomes: nat -> CallOutcome)
    returns (calls: seq<OrderCall>, notices: seq<BuyNotice>)
    ensures |calls| == |orders| && |notices| == |orders|
    ensures forall i :: 0 <= i < |orders| ==> calls[i] == OrderFor(orders[i], market)
    ensures forall i :: 0 <= i < |orders| ==> notices[i] == NoticeFor(orders[i], market, outcomes(i))
  {
    calls, notices := [], [];
    var k := 0;
    while k < |orders|
      invariant 0 <= k <= |orders|
      invariant |calls| == k && |notices| == k
      invariant forall i :: 0 <= i < k ==> calls[i] == OrderFor(orders[i], market)
      invariant forall i :: 0 <= i < k ==> notices[i] == NoticeFor(orders[i], market, outcomes(i))
    {
      calls := calls + [OrderFor(orders[k], market)];
      notices := notices + [NoticeFor(orders[k], market, outcomes(k))];
      k := k + 1;
    }
  }
}
