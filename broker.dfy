/**
 * The brokerage client as its callers see it: replies reduced to the
 * fields the core reads, calls that may raise, the account balance, and
 * the orders a caller places. The momentum strategy, the daily job and
 * the routines program against these values; the HTTP work behind them
 * is in module KisClient.
 */
module Broker {
  import opened Base

  /** A reply body: `rt_cd` ("0" means success) and the message `msg1`. */
  datatype ApiData = ApiData(rtCd: Option<string>, msg1: Option<string>)

  /** `res.get("rt_cd") == "0"`. */
  predicate Succeeded(d: ApiData) {
    d.rtCd == Some("0")
  }

  /** A client call either returns a reply or raises. */
  datatype CallOutcome = Replied(data: ApiData) | Raised(error: string)

  /**
   * One holding of `output1`. Rates are in hundredths of a percent
   * (`evlu_pfls_rt` = 5.25 is 525).
   */
  datatype Holding = Holding(
    code: string, name: string, quantity: int, buyPrice: int,
    currentPrice: int, profitRate: int, profitAmount: int)

  /** The first record of `output2`: available cash and total valuation, each possibly absent. */
  datatype Summary = Summary(cash: Option<int>, totalValue: Option<int>)

  /** A balance reply. `output2` is `None` when the key is missing (the code then reads `[{}]`). */
  datatype BalanceData = BalanceData(holdings: seq<Holding>, output2: Option<seq<Summary>>)

  /**
   * `balance.get("output2", [{}])[0]`: `Err` stands for the `IndexError`
   * that an empty `output2` list raises.
   */
  function FirstSummary(b: BalanceData): (r: Result<Summary>)
    ensures r.Err? <==> b.output2 == Some([])
    ensures b.output2.None? ==> r == Ok(Summary(None, None))
    ensures b.output2.Some? && b.output2.value != [] ==> r == Ok(b.output2.value[0])
  {
    match b.output2
    case None => Ok(Summary(None, None))
    case Some(s) => if |s| == 0 then Err("list index out of range") else Ok(s[0])
  }

  /** `int(output2.get("dnca_tot_amt", 0))`, raising where `FirstSummary` raises. */
  function CashOf(b: BalanceData): (r: Result<int>)
    ensures r.Err? <==> b.output2 == Some([])
    ensures r.Ok? && b.output2.Some? ==> r.value == b.output2.value[0].cash.GetOr(0)
    ensures b.output2.None? ==> r == Ok(0)
  {
    match FirstSummary(b)
    case Err(e) => Err(e)
    case Ok(s) => Ok(s.cash.GetOr(0))
  }

  /** A balance lookup followed by the cash read: either step may raise. */
  function CashFrom(balance: Result<BalanceData>): (r: Result<int>)
    ensures balance.Err? ==> r.Err?
    ensures balance.Ok? ==> r == CashOf(balance.value)
  {
    match balance
    case Err(e) => Err(e)
    case Ok(b) => CashOf(b)
  }

  /** An order as placed through the client. Price 0 is a market order. */
  datatype OrderCall =
    | DomesticBuy(code: string, qty: int, price: int)
    | DomesticSell(code: string, qty: int, price: int)
    | OverseasBuy(exchange: string, code: string, qty: int, price: int)
}
