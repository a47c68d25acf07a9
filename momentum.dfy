/**
 * The momentum scalping strategy (`src/trading/momentum.py`): the list of
 * today's scalping positions and its state file, the scan that picks one
 * rising stock and asks for approval, the approved buy, and the
 * end-of-day liquidation. The brokerage replies, the clock and the file
 * are parameters; chat notices are returned as values.
 */
module Momentum {
  import opened Base
  import opened Broker
  import Clock
  import Decimal

  /** The scan's window, in hundredths of a percent, and its volume floor. */
  const MinRate := 500
  const MaxRate := 2000
  const MinVolume := 100000
  /** `RISK_CONFIG.get("scalping_amount", 100000)`: the configuration has no such key. */
  const ScalpingAmount := 100000

  /**
   * A scalping position. A position bought in this process has `time`;
   * one read back from the state file has only `timeStr`.
   */
  datatype Position = Position(
    code: string, name: string, qty: int, buyPrice: int,
    time: Option<Clock.DateTime>, timeStr: Option<string>)

  /** `scalping_state.json`: absent, unreadable, or the saved entries. */
  datatype StateFile = Absent | Unreadable | Stored(entries: seq<Position>)

  /** One row of the rising-stock ranking; a field the reply left out is `None`. Rates in hundredths. */
  datatype RankedStock = RankedStock(
    code: Option<string>, name: Option<string>, price: Option<int>,
    rate: Option<int>, volume: Option<int>)

  /** The ranking reply; `output` may be missing. */
  datatype RankData = RankData(output: Option<seq<RankedStock>>)

  /** The brokerage queries a scan makes, in order. */
  datatype Query = RankQuery | BalanceQuery

  /** How a scan ended. The three `Warned…` outcomes send one chat warning each. */
  datatype ScanOutcome =
    | OutsideHours
    | RankLookupFailed
    | NoCandidate
    | WarnedLookupFailed
    | WarnedInsufficientCash(cash: int)
    | WarnedQuantityInsufficient(price: int)
    | ScanFailed
    | ApprovalRequested(code: string, name: string, qty: int, price: int, rate: int)

  predicate Warned(o: ScanOutcome) {
    o.WarnedLookupFailed? || o.WarnedInsufficientCash? || o.WarnedQuantityInsufficient?
  }

  /** The chat notices of a buy and of a liquidation. */
  datatype Notice =
    | BuyFilled(name: string, code: string, qty: int, price: int)
    | BuyFailed(name: string, code: string, qty: int, reason: string)
    | Liquidated(name: string, qty: int)
    | LiquidationFailed(name: string, reason: string)
    | LiquidationError(name: string, error: string)

  predicate InTradingHours(now: Clock.DateTime) {
    9 <= now.hour < 15
  }

  /** `any(s["code"] == code for s in scalping_positions)`. */
  predicate Held(positions: seq<Position>, code: string) {
    exists p :: p in positions && p.code == code
  }

  /** The rate and volume test; missing values read as 0. */
  predicate InWindow(s: RankedStock) {
    MinRate <= s.rate.GetOr(0) <= MaxRate && s.volume.GetOr(0) > MinVolume
  }

  predicate Eligible(s: RankedStock, positions: seq<Position>) {
    s.code.Some? && InWindow(s) && !Held(positions, s.code.value)
  }

  /** Every stock before `i` has a code (reading it raises otherwise) and is not eligible. */
  predicate PassedOver(stocks: seq<RankedStock>, positions: seq<Position>, i: int) {
    0 <= i <= |stocks| && forall j :: 0 <= j < i ==> stocks[j].code.Some? && !Eligible(stocks[j], positions)
  }

  /** Stock `i` is the scan's target: the first eligible one. */
  predicate FirstEligible(stocks: seq<RankedStock>, positions: seq<Position>, i: int) {
    PassedOver(stocks, positions, i) && i < |stocks| && Eligible(stocks[i], positions)
  }

  /** Reading the code of stock `i` raises before any target was found. */
  predicate FailsAt(stocks: seq<RankedStock>, positions: seq<Position>, i: int) {
    PassedOver(stocks, positions, i) && i < |stocks| && stocks[i].code.None?
  }

  /** Exactly one of: a first eligible stock, a stock whose code raises, or no target at all. */
  lemma {:induction false} ScanCases(stocks: seq<RankedStock>, positions: seq<Position>)
    ensures PassedOver(stocks, positions, |stocks|)
            || (exists i :: FirstEligible(stocks, positions, i))
            || (exists i :: FailsAt(stocks, positions, i))
    ensures forall i, j :: FirstEligible(stocks, positions, i) && FirstEligible(stocks, positions, j) ==> i == j
    ensures forall i, j :: FirstEligible(stocks, positions, i) && FailsAt(stocks, positions, j) ==> false
    ensures forall i :: FirstEligible(stocks, positions, i) || FailsAt(stocks, positions, i)
                        ==> !PassedOver(stocks, positions, |stocks|)
  {
    var k := 0;
    while k < |stocks| && stocks[k].code.Some? && !Eligible(stocks[k], positions)
      invariant PassedOver(stocks, positions, k)
      decreases |stocks| - k
    {
      k := k + 1;
    }
    if k < |stocks| {
      if stocks[k].code.None? {
        assert FailsAt(stocks, positions, k);
      } else {
        assert FirstEligible(stocks, positions, k);
      }
    }
  }

  /** The target has a name and a price, and the re-read cash covers the scalping budget. */
  predicate CashGatePassed(target: RankedStock, balance: Result<BalanceData>) {
    && target.name.Some? && target.price.Some?
    && CashFrom(balance).Ok? && CashFrom(balance).value >= ScalpingAmount
  }

  /**
   * The part of the scan after the target is chosen: its name and price
   * (a missing one raises), the cash gate, and the quantity gate.
   */
  function TargetOutcome(target: RankedStock, balance: Result<BalanceData>): (o: ScanOutcome)
    requires target.code.Some? && InWindow(target)
    ensures target.name.None? || target.price.None? ==> o == ScanFailed
    ensures target.name.Some? && target.price.Some? && CashFrom(balance).Err? ==> o == WarnedLookupFailed
    ensures (target.name.Some? && target.price.Some? && CashFrom(balance).Ok? && CashFrom(balance).value < ScalpingAmount)
              ==> o == WarnedInsufficientCash(CashFrom(balance).value)
    ensures o.ApprovalRequested? ==> CashFrom(balance).Ok? && CashFrom(balance).value >= ScalpingAmount
    ensures o.ApprovalRequested? ==> o.code == target.code.value && Some(o.name) == target.name
                                     && Some(o.price) == target.price && Some(o.rate) == target.rate
    ensures o.ApprovalRequested? ==> 1 <= o.qty && o.qty * o.price <= ScalpingAmount < (o.qty + 1) * o.price
    ensures o.WarnedQuantityInsufficient? ==> target.price == Some(o.price) && (o.price < 0 || o.price > ScalpingAmount)
    ensures target.price == Some(0) ==> !o.ApprovalRequested? && !o.WarnedQuantityInsufficient?
    ensures CashGatePassed(target, balance) && 0 < target.price.value <= ScalpingAmount ==>
              o == ApprovalRequested(target.code.value, target.name.value, ScalpingAmount / target.price.value,
                                     target.price.value, target.rate.value)
    ensures CashGatePassed(target, balance) && (target.price.value < 0 || target.price.value > ScalpingAmount) ==>
              o == WarnedQuantityInsufficient(target.price.value)
    ensures CashGatePassed(target, balance) && target.price.value == 0 ==> o == ScanFailed
  {
    if target.name.None? || target.price.None? then ScanFailed
    else
      var price := target.price.value;
      match CashFrom(balance)
      case Err(_) => WarnedLookupFailed
      case Ok(cash) =>
        if cash < ScalpingAmount then WarnedInsufficientCash(cash)
        else if price == 0 then ScanFailed
        else
          var qty := TruncDiv(ScalpingAmount, price);
          if qty <= 0 then WarnedQuantityInsufficient(price)
          else ApprovalRequested(target.code.value, target.name.value, qty, price, target.rate.value)
  }

  /** The form `save_state` writes: a `time` becomes its `%Y-%m-%d %H:%M:%S` text. */
  function SavedForm(p: Position): (s: Position)
    ensures p.time.Some? ==> s.time.None? && s.timeStr == Some(Clock.Timestamp(p.time.value))
    ensures p.time.None? ==> s == p
    ensures s.code == p.code && s.name == p.name && s.qty == p.qty && s.buyPrice == p.buyPrice
  {
    match p.time
    case Some(t) => p.(time := None, timeStr := Some(Clock.Timestamp(t)))
    case None => p
  }

  function SavedForms(ps: seq<Position>): (r: seq<Position>)
    ensures |r| == |ps| && forall i :: 0 <= i < |ps| ==> r[i] == SavedForm(ps[i])
  {
    seq(|ps|, i requires 0 <= i < |ps| => SavedForm(ps[i]))
  }

  /** `pos.get("time_str", "").startswith(today)`. */
  predicate StampedOn(p: Position, today: Clock.Date) {
    Clock.DateString(today) <= p.timeStr.GetOr("")
  }

  /**
   * The list after `load_state` on day `today`: exactly the stored entries
   * stamped with today's date; a missing or unreadable file leaves the
   * list as it was.
   */
  function Reloaded(current: seq<Position>, file: StateFile, today: Clock.Date): (r: seq<Position>)
    ensures !file.Stored? ==> r == current
    ensures file.Stored? ==> |r| <= |file.entries|
                             && forall p :: p in r <==> p in file.entries && StampedOn(p, today)
  {
    match file
    case Stored(entries) =>
      FilterMembers(entries, p => StampedOn(p, today));
      Filter(entries, p => StampedOn(p, today))
    case _ => current
  }

  /** A position opened on `today`: by its `time` when it has one, by its text timestamp otherwise. */
  predicate OpenedOn(p: Position, today: Clock.Date) {
    if p.time.Some? then p.time.value.DateOf() == today else StampedOn(p, today)
  }

  /**
   * Saving and reloading on the same day keeps exactly the positions
   * opened that day, in order, in their saved form.
   */
  lemma {:induction false} SaveThenReload(ps: seq<Position>, today: Clock.Date)
    requires Clock.ValidDate(today)
    requires forall p :: p in ps && p.time.Some? ==> p.time.value.Valid()
    ensures Filter(SavedForms(ps), p => StampedOn(p, today)) == SavedForms(Filter(ps, p => OpenedOn(p, today)))
    decreases |ps|
  {
    if ps != [] {
      var p, rest := ps[0], ps[1..];
      SavedOnSameDay(p, today);
      SavedFormsCons(ps);
      SaveThenReload(rest, today);
      if OpenedOn(p, today) {
        SavedFormsPrepend(p, Filter(rest, q => OpenedOn(q, today)));
      }
    }
  }

  /** A position's saved form is stamped today exactly when the position was opened today. */
  lemma SavedOnSameDay(p: Position, today: Clock.Date)
    requires Clock.ValidDate(today)
    requires p.time.Some? ==> p.time.value.Valid()
    ensures StampedOn(SavedForm(p), today) <==> OpenedOn(p, today)
  {
    if p.time.Some? {
      Clock.TimestampOnDate(p.time.value, today);
    }
  }

  /** Saving a non-empty list saves its head, then its tail. */
  lemma SavedFormsCons(ps: seq<Position>)
    requires ps != []
    ensures SavedForms(ps) == [SavedForm(ps[0])] + SavedForms(ps[1..])
  {
  }

  /** Saving a list with one more position in front. */
  lemma SavedFormsPrepend(p: Position, ps: seq<Position>)
    ensures SavedForms([p] + ps) == [SavedForm(p)] + SavedForms(ps)
  {
    assert ([p] + ps)[1..] == ps;
    SavedFormsCons([p] + ps);
  }

  /**
   * The text of the `rt_cd` "1" refusal when the re-checked cash falls short:
   * both amounts in `IntGrouped` form, whose contract puts a comma at every
   * fourth place from the end. Without its commas it is the same sentence
   * with the plain decimal amounts.
   */
  function ShortfallMessage(needed: int, cash: int): (m: string)
    ensures m == "잔액 부족: 필요 " + Decimal.IntGrouped(needed) + "원, 현재 예수금 " + Decimal.IntGrouped(cash) + "원"
    ensures Decimal.StripCommas(m) == "잔액 부족: 필요 " + Decimal.IntToString(needed) + "원 현재 예수금 " + Decimal.IntToString(cash) + "원"
  {
    Decimal.GroupedIsDecimal(needed);
    Decimal.GroupedIsDecimal(cash);
    ShortfallPieces();
    StripFive("잔액 부족: 필요 ", Decimal.IntGrouped(needed), "원, 현재 예수금 ", Decimal.IntGrouped(cash), "원",
              "잔액 부족: 필요 ", Decimal.IntToString(needed), "원 현재 예수금 ", Decimal.IntToString(cash), "원");
    "잔액 부족: 필요 " + Decimal.IntGrouped(needed) + "원, 현재 예수금 " + Decimal.IntGrouped(cash) + "원"
  }

  /** The refusal for 1,000,000 needed against 200,000 held. */
  lemma ShortfallExample()
    ensures ShortfallMessage(1000000, 200000) == "잔액 부족: 필요 1,000,000원, 현재 예수금 200,000원"
  {
    Decimal.GroupedMillion();
    Decimal.GroupedTwoHundredThousand();
  }

  /** The fixed parts of the shortfall sentence without their commas. */
  lemma ShortfallPieces()
    ensures Decimal.StripCommas("잔액 부족: 필요 ") == "잔액 부족: 필요 "
    ensures Decimal.StripCommas("원, 현재 예수금 ") == "원 현재 예수금 "
    ensures Decimal.StripCommas("원") == "원"
  {
    Decimal.StripCommasNone("잔액 부족: 필요 ");
    Decimal.StripCommasNone("원");
    Decimal.StripCommasNone(" 현재 예수금 ");
    Decimal.StripCommasComma("원", " 현재 예수금 ");
    assert "원" + "," + " 현재 예수금 " == "원, 현재 예수금 ";
  }

  /** Removing commas from five pieces one piece at a time. */
  lemma StripFive(a: string, b: string, c: string, d: string, e: string,
                  a': string, b': string, c': string, d': string, e': string)
    requires Decimal.StripCommas(a) == a' && Decimal.StripCommas(b) == b' && Decimal.StripCommas(c) == c'
    requires Decimal.StripCommas(d) == d' && Decimal.StripCommas(e) == e'
    ensures Decimal.StripCommas(a + b + c + d + e) == a' + b' + c' + d' + e'
  {
    Decimal.StripCommasAppend(a + b + c + d, e);
    Decimal.StripCommasAppend(a + b + c, d);
    Decimal.StripCommasAppend(a + b, c);
    Decimal.StripCommasAppend(a, b);
  }

  /** The notice for one liquidation order. */
  function SellNotice(p: Position, outcome: CallOutcome): (n: Notice)
    ensures outcome.Replied? && Succeeded(outcome.data) ==> n == Liquidated(p.name, p.qty)
    ensures outcome.Replied? && !Succeeded(outcome.data) ==> n == LiquidationFailed(p.name, outcome.data.msg1.GetOr("알 수 없는 오류"))
    ensures outcome.Raised? ==> n == LiquidationError(p.name, outcome.error)
  {
    match outcome
    case Raised(e) => LiquidationError(p.name, e)
    case Replied(d) =>
      if d.rtCd == Some("0") then Liquidated(p.name, p.qty)
      else LiquidationFailed(p.name, d.msg1.GetOr("알 수 없는 오류"))
  }

  /** The module's list `scalping_positions` and its state file. */
  class Scalper {
    var positions: seq<Position>
    var file: StateFile

    /** Importing the module: an empty list, then `load_state`. */
    constructor (file: StateFile, today: Clock.Date)
      ensures this.file == file
      ensures positions == Reloaded([], file, today)
    {
      positions := [];
      this.file := file;
      new;
      LoadState(today);
    }

    /** `save_state`: the file holds the saved form of every position; the list is untouched. */
    method SaveState()
      modifies this
      ensures positions == old(positions)
      ensures file == Stored(SavedForms(positions))
    {
      var saved: seq<Position> := [];
      var k := 0;
      while k < |positions|
        invariant 0 <= k <= |positions|
        invariant |saved| == k
        invariant forall i :: 0 <= i < k ==> saved[i] == SavedForm(positions[i])
      {
        saved := saved + [SavedForm(positions[k])];
        k := k + 1;
      }
      file := Stored(saved);
    }

    /** `load_state` on day `today`. */
    method LoadState(today: Clock.Date)
      modifies this
      ensures file == old(file)
      ensures positions == Reloaded(old(positions), file, today)
    {
      if !file.Stored? {
        return;
      }
      var entries := file.entries;
      var valid: seq<Position> := [];
      var k := 0;
      while k < |entries|
        invariant 0 <= k <= |entries|
        invariant file == old(file)
        invariant valid == Filter(entries[..k], p => StampedOn(p, today))
      {
        FilterPrefixStep(entries, k, p => StampedOn(p, today));
        if StampedOn(entries[k], today) {
          valid := valid + [entries[k]];
        }
        k := k + 1;
      }
      assert entries[..k] == entries;
      positions := valid;
    }

    /**
     * `check_momentum_and_scalp` at time `now`; `rank` and `balance` are
     * what the two brokerage queries would return. It changes no state.
     */
    method CheckMomentumAndScalp(now: Clock.DateTime, rank: Result<RankData>, balance: Result<BalanceData>)
      returns (queries: seq<Query>, o: ScanOutcome)
      ensures !InTradingHours(now) ==> o == OutsideHours && queries == []
      ensures InTradingHours(now) && rank.Err? ==> o == RankLookupFailed && queries == [RankQuery]
      ensures InTradingHours(now) && rank.Ok? ==>
                var stocks := rank.value.output.GetOr([]);
                && (PassedOver(stocks, positions, |stocks|) ==> o == NoCandidate && queries == [RankQuery])
                && (forall i :: FailsAt(stocks, positions, i) ==> o == ScanFailed && queries == [RankQuery])
                && (forall i :: FirstEligible(stocks, positions, i) ==>
                      o == TargetOutcome(stocks[i], balance)
                      && queries == (if stocks[i].name.Some? && stocks[i].price.Some? then [RankQuery, BalanceQuery] else [RankQuery]))
      ensures o.ApprovalRequested? ==> !Held(positions, o.code)
    {
      if !(9 <= now.hour < 15) {
        return [], OutsideHours;
      }
      queries := [RankQuery];
      if rank.Err? {
        return queries, RankLookupFailed;
      }
      var stocks := rank.value.output.GetOr([]);
      ScanCases(stocks, positions);
      var k := 0;
      while k < |stocks|
        invariant PassedOver(stocks, positions, k)
      {
        var s := stocks[k];
        if s.code.None? {
          assert FailsAt(stocks, positions, k);
          return queries, ScanFailed;
        }
        if InWindow(s) && !Held(positions, s.code.value) {
          assert FirstEligible(stocks, positions, k);
          if s.name.Some? && s.price.Some? {
            queries := queries + [BalanceQuery];
          }
          o := TargetOutcome(s, balance);
          return;
        }
        k := k + 1;
      }
      o := NoCandidate;
    }

    /**
     * `execute_momentum_buy` once approved: `balance` answers the cash
     * re-check and `order` the market buy. A raising buy propagates (`Err`).
     */
    method ExecuteMomentumBuy(code: string, name: string, qty: int, price: int, now: Clock.DateTime,
                              balance: Result<BalanceData>, order: CallOutcome)
      returns (r: Result<ApiData>, orders: seq<OrderCall>, notices: seq<Notice>)
      modifies this
      ensures CashFrom(balance).Ok? && CashFrom(balance).value < price * qty ==>
                r == Ok(ApiData(Some("1"), Some(ShortfallMessage(price * qty, CashFrom(balance).value))))
                && orders == [] && notices == [] && positions == old(positions) && file == old(file)
      ensures !(CashFrom(balance).Ok? && CashFrom(balance).value < price * qty) ==> orders == [DomesticBuy(code, qty, 0)]
      ensures orders != [] && order.Raised? ==>
                r == Err(order.error) && notices == [] && positions == old(positions) && file == old(file)
      ensures orders != [] && order.Replied? ==> r == Ok(order.data)
      ensures orders != [] && order.Replied? && Succeeded(order.data) ==>
                positions == old(positions) + [Position(code, name, qty, price, Some(now), Some(Clock.Timestamp(now)))]
                && file == Stored(SavedForms(positions))
                && notices == [BuyFilled(name, code, qty, price)]
      ensures orders != [] && order.Replied? && !Succeeded(order.data) ==>
                positions == old(positions) && file == old(file)
                && notices == [BuyFailed(name, code, qty, order.data.msg1.GetOr("알 수 없는 오류"))]
    {
      var cash := CashFrom(balance);
      if cash.Ok? && cash.value < price * qty {
        return Ok(ApiData(Some("1"), Some(ShortfallMessage(price * qty, cash.value)))), [], [];
      }
      orders := [DomesticBuy(code, qty, 0)];
      match order
      case Raised(e) =>
        r, notices := Err(e), [];
      case Replied(d) =>
        r := Ok(d);
        if d.rtCd == Some("0") {
          positions := positions + [Position(code, name, qty, price, Some(now), Some(Clock.Timestamp(now)))];
          SaveState();
          notices := [BuyFilled(name, code, qty, price)];
        } else {
          notices := [BuyFailed(name, code, qty, d.msg1.GetOr("알 수 없는 오류"))];
        }
    }

    /**
     * `sell_all_scalps`: one market sell per position, `sells(i)` answering
     * the i-th; one notice each whatever the outcome; then the list is
     * cleared and saved. An empty list does nothing. `client` is the client
     * lookup: when it raises, the outer handler only logs, so nothing is
     * sold and the list is neither cleared nor saved.
     */
    method SellAllScalps(client: Result<()>, sells: nat -> CallOutcome) returns (orders: seq<OrderCall>, notices: seq<Notice>)
      modifies this
      ensures old(positions) == [] || client.Err? ==>
                orders == [] && notices == [] && positions == old(positions) && file == old(file)
      ensures old(positions) != [] && client.Ok? ==>
                && positions == [] && file == Stored([])
                && |orders| == |old(positions)| && |notices| == |old(positions)|
                && (forall i :: 0 <= i < |orders| ==> orders[i] == DomesticSell(old(positions)[i].code, old(positions)[i].qty, 0))
                && (forall i :: 0 <= i < |notices| ==> notices[i] == SellNotice(old(positions)[i], sells(i)))
    {
      orders, notices := [], [];
      if positions == [] || client.Err? {
        return;
      }
      var k := 0;
      while k < |positions|
        invariant 0 <= k <= |positions|
        invariant |orders| == k && |notices| == k
        invariant forall i :: 0 <= i < k ==> orders[i] == DomesticSell(positions[i].code, positions[i].qty, 0)
        invariant forall i :: 0 <= i < k ==> notices[i] == SellNotice(positions[i], sells(i))
      {
        var p := positions[k];
        orders := orders + [DomesticSell(p.code, p.qty, 0)];
        notices := notices + [SellNotice(p, sells(k))];
        k := k + 1;
      }
      positions := [];
      SaveState();
    }
  }
}
