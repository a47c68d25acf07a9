/**
 * The brokerage client (`src/trading/kis_client.py`): its access-token
 * lifecycle over a clock value, the paper-trading rewrite of transaction
 * ids, the reply check on `rt_cd`, the cash-order bodies, and the
 * process-wide client. HTTP replies, the credential exchange, the token
 * file and the clock are parameters.
 */
module KisClient {
  import opened Base
  import Decimal
  import opened Broker

  /** The settings a client is built from. `mode` is the configured trading mode. */
  datatype Config = Config(
    mode: string, baseUrl: string, appKey: string, appSecret: string,
    accountNumber: string, accountProduct: string)

  /** `KISToken`; `expiresAt` is a clock reading on the same scale as `now`. */
  datatype Token = Token(accessToken: string, tokenType: string, expiresAt: int)

  /** The token file: missing, present but unreadable (bad JSON, a missing key, a bad date), or holding a token. */
  datatype TokenFile = Missing | Unreadable | Stored(token: Token)

  class TokenStore {
    var file: TokenFile

    constructor (file: TokenFile)
      ensures this.file == file
    {
      this.file := file;
    }
  }

  /** `_load_token`: the token taken from the file at time `now`. */
  function LoadedToken(file: TokenFile, now: int): (t: Option<Token>)
    ensures t.Some? <==> file.Stored? && file.token.expiresAt > now
    ensures t.Some? ==> t.value == file.token
  {
    if file.Stored? && file.token.expiresAt > now then Some(file.token) else None
  }

  /** A token that `_get_token` may hand out without a new exchange. */
  predicate Live(t: Option<Token>, now: int) {
    t.Some? && t.value.expiresAt > now
  }

  /**
   * The access token `_get_token` returns: the held one while it is live,
   * otherwise what the credential exchange issued (or the error it raised).
   */
  function Access(t: Option<Token>, now: int, exchange: Result<Token>): (r: Result<string>)
    ensures Live(t, now) ==> r == Ok(t.value.accessToken)
    ensures !Live(t, now) && exchange.Ok? ==> r == Ok(exchange.value.accessToken)
    ensures !Live(t, now) && exchange.Err? ==> r.Err?
  {
    if Live(t, now) then Ok(t.value.accessToken)
    else match exchange
      case Ok(n) => Ok(n.accessToken)
      case Err(e) => Err(e)
  }

  predicate PaperPrefix(c: char) {
    c == 'T' || c == 'J' || c == 'C'
  }

  /**
   * The transaction id sent for `trId`: in paper mode a leading T, J or C
   * becomes V. In paper mode an empty id raises (`tr_id[0]`).
   */
  function RewriteTrId(mode: string, trId: string): (r: Result<string>)
    ensures r.Err? <==> mode == "paper" && trId == []
    ensures r.Ok? ==> |r.value| == |trId|
    ensures r.Ok? && |trId| > 0 ==> r.value[1..] == trId[1..]
    ensures mode == "paper" && |trId| > 0 && PaperPrefix(trId[0]) ==> r.Ok? && r.value[0] == 'V'
    ensures mode != "paper" ==> r == Ok(trId)
    ensures mode == "paper" && |trId| > 0 && !PaperPrefix(trId[0]) ==> r == Ok(trId)
  {
    if mode == "paper" then
      if trId == [] then Err("string index out of range")
      else if PaperPrefix(trId[0]) then Ok("V" + trId[1..])
      else Ok(trId)
    else Ok(trId)
  }

  datatype Headers = Headers(
    contentType: string, authorization: string, appKey: string,
    appSecret: string, trId: string, custType: string)

  /**
   * The header dictionary of `_get_headers` for an already converted TR id:
   * the token follows the `Bearer ` scheme word, the credentials are the
   * configured ones, and the customer type is always personal.
   */
  function MakeHeaders(config: Config, trId: string, access: string): (h: Headers)
    ensures |h.authorization| == 7 + |access|
    ensures h.authorization[..7] == "Bearer " && h.authorization[7..] == access
    ensures h.appKey == config.appKey && h.appSecret == config.appSecret && h.trId == trId
    ensures h.contentType == "application/json" && h.custType == "P"
  {
    Headers("application/json", "Bearer " + access, config.appKey, config.appSecret, trId, "P")
  }

  /** A request as sent: a GET carries `params`, any other verb carries a JSON body. */
  datatype HttpRequest = HttpRequest(verb: string, url: string, headers: Headers, payload: map<string, string>)

  /** What the server answered: a transport or status error, or a decoded JSON body. */
  datatype HttpReply = TransportError(error: string) | Json(data: ApiData)

  /** `_request`'s check: a reply is returned only when `rt_cd` is "0". */
  function CheckReply(data: ApiData): (r: Result<ApiData>)
    ensures r.Ok? <==> Succeeded(data)
    ensures r.Ok? ==> r.value == data
    ensures r.Err? ==> r.msg == "KIS API Error: " + data.msg1.GetOr("Unknown error")
  {
    if data.rtCd == Some("0") then Ok(data)
    else Err("KIS API Error: " + data.msg1.GetOr("Unknown error"))
  }

  /** The result of `_request` once the request was sent. */
  function Outcome(reply: HttpReply): (r: Result<ApiData>)
    ensures r.Ok? <==> reply.Json? && Succeeded(reply.data)
    ensures r.Ok? ==> r.value == reply.data
    ensures reply.Json? && r.Err? ==> r.msg == "KIS API Error: " + reply.data.msg1.GetOr("Unknown error")
  {
    match reply
    case TransportError(e) => Err(e)
    case Json(d) => CheckReply(d)
  }

  const BuyTrId := "TTTC0802U"
  const SellTrId := "TTTC0801U"
  const OrderPath := "/uapi/domestic-stock/v1/trading/order-cash"

  /** `ORD_DVSN`: "01" (market) for price 0, "00" (limit) otherwise. */
  function OrdDvsn(price: int): (code: string)
    ensures code == "01" <==> price == 0
    ensures code == "00" <==> price != 0
  {
    if price == 0 then "01" else "00"
  }

  /** The body of a cash order; quantity and price are written in decimal and read back unchanged. */
  function OrderBody(config: Config, code: string, qty: int, price: int): (body: map<string, string>)
    ensures body.Keys == {"CANO", "ACNT_PRDT_CD", "PDNO", "ORD_DVSN", "ORD_QTY", "ORD_UNPR"}
    ensures body["CANO"] == config.accountNumber && body["ACNT_PRDT_CD"] == config.accountProduct
    ensures body["PDNO"] == code
    ensures body["ORD_DVSN"] == OrdDvsn(price)
    ensures Decimal.ParseInt(body["ORD_QTY"]) == Some(qty)
    ensures Decimal.ParseInt(body["ORD_UNPR"]) == Some(price)
  {
    Decimal.IntRoundTrip(qty);
    Decimal.IntRoundTrip(price);
    map[
      "CANO" := config.accountNumber,
      "ACNT_PRDT_CD" := config.accountProduct,
      "PDNO" := code,
      "ORD_DVSN" := OrdDvsn(price),
      "ORD_QTY" := Decimal.IntToString(qty),
      "ORD_UNPR" := Decimal.IntToString(price)]
  }

  class Client {
    const config: Config
    const store: TokenStore
    var token: Option<Token>
    /** The number of credential exchanges this client has issued. */
    var exchanges: nat

    /** `KISClient()`: no token, then whatever `_load_token` finds. */
    constructor (config: Config, store: TokenStore, now: int)
      ensures this.config == config && this.store == store
      ensures token == LoadedToken(store.file, now)
      ensures exchanges == 0
    {
      this.config := config;
      this.store := store;
      token := LoadedToken(store.file, now);
      exchanges := 0;
    }

    /** Nothing about the session changed. */
    twostate predicate Untouched()
      reads this, store
    {
      token == old(token) && exchanges == old(exchanges) && store.file == old(store.file)
    }

    /**
     * The session after `_get_token` at `now`: a live token is reused with
     * no exchange; otherwise one exchange is issued and, when it succeeds,
     * its token is held and saved.
     */
    twostate predicate RefreshedBy(now: int, exchange: Result<Token>)
      reads this, store
    {
      if Live(old(token), now) then Untouched()
      else
        exchanges == old(exchanges) + 1
        && (exchange.Ok? ==> token == Some(exchange.value) && store.file == Stored(exchange.value))
        && (exchange.Err? ==> token == old(token) && store.file == old(store.file))
    }

    /** `_save_token`: writes the held token; does nothing when there is none. */
    method SaveToken()
      modifies store
      ensures token.Some? ==> store.file == Stored(token.value)
      ensures token.None? ==> store.file == old(store.file)
    {
      if token.Some? {
        store.file := Stored(token.value);
      }
    }

    /** `_get_token`; `exchange` is what `/oauth2/tokenP` would return. */
    method GetToken(now: int, exchange: Result<Token>) returns (r: Result<string>)
      modifies this, store
      ensures r == Access(old(token), now, exchange)
      ensures RefreshedBy(now, exchange)
    {
      if token.Some? && token.value.expiresAt > now {
        return Ok(token.value.accessToken);
      }
      exchanges := exchanges + 1;
      match exchange
      case Err(e) =>
        r := Err(e);
      case Ok(issued) =>
        token := Some(issued);
        SaveToken();
        r := Ok(issued.accessToken);
    }

    /** `_get_headers`: the id is rewritten first, so an empty id in paper mode raises before any exchange. */
    method GetHeaders(trId: string, now: int, exchange: Result<Token>) returns (h: Result<Headers>)
      modifies this, store
      ensures RewriteTrId(config.mode, trId).Err? ==> h.Err? && Untouched()
      ensures RewriteTrId(config.mode, trId).Ok? ==> RefreshedBy(now, exchange)
      ensures h.Ok? <==> RewriteTrId(config.mode, trId).Ok? && Access(old(token), now, exchange).Ok?
      ensures h.Ok? ==> h.value == MakeHeaders(config, RewriteTrId(config.mode, trId).value, Access(old(token), now, exchange).value)
    {
      var id := RewriteTrId(config.mode, trId);
      if id.Err? {
        return Err(id.msg);
      }
      var access := GetToken(now, exchange);
      if access.Err? {
        return Err(access.msg);
      }
      h := Ok(MakeHeaders(config, id.value, access.value));
    }

    /**
     * `_request`: the request is sent only when the headers were built,
     * as a GET with the query parameters or otherwise as a POST with the
     * JSON body, and its data is returned only when `rt_cd` is "0".
     */
    method Request(verb: string, path: string, trId: string, params: map<string, string>,
                   body: map<string, string>, now: int, exchange: Result<Token>, reply: HttpReply)
      returns (sent: Option<HttpRequest>, r: Result<ApiData>)
      modifies this, store
      ensures RewriteTrId(config.mode, trId).Err? ==> Untouched()
      ensures RewriteTrId(config.mode, trId).Ok? ==> RefreshedBy(now, exchange)
      ensures sent.Some? <==> RewriteTrId(config.mode, trId).Ok? && Access(old(token), now, exchange).Ok?
      ensures sent.Some? ==> sent.value == HttpRequest(
        if verb == "GET" then "GET" else "POST", config.baseUrl + path,
        MakeHeaders(config, RewriteTrId(config.mode, trId).value, Access(old(token), now, exchange).value),
        if verb == "GET" then params else body)
      ensures sent.Some? ==> r == Outcome(reply)
      ensures sent.None? ==> r.Err?
    {
      var headers := GetHeaders(trId, now, exchange);
      if headers.Err? {
        return None, Err(headers.msg);
      }
      var payload := if verb == "GET" then params else body;
      var sentVerb := if verb == "GET" then "GET" else "POST";
      sent := Some(HttpRequest(sentVerb, config.baseUrl + path, headers.value, payload));
      r := Outcome(reply);
    }

    /** `buy_stock`: a cash buy under TTTC0802U (VTTC0802U in paper mode). */
    method BuyStock(code: string, qty: int, price: int, now: int, exchange: Result<Token>, reply: HttpReply)
      returns (sent: Option<HttpRequest>, r: Result<ApiData>)
      modifies this, store
      ensures RefreshedBy(now, exchange)
      ensures sent.Some? <==> Access(old(token), now, exchange).Ok?
      ensures sent.Some? ==> sent.value.verb == "POST" && sent.value.url == config.baseUrl + OrderPath
      ensures sent.Some? ==> sent.value.headers.trId == (if config.mode == "paper" then "VTTC0802U" else BuyTrId)
      ensures sent.Some? ==> sent.value.payload == OrderBody(config, code, qty, price)
      ensures sent.Some? ==> r == Outcome(reply)
      ensures sent.None? ==> r.Err?
    {
      sent, r := Request("POST", OrderPath, BuyTrId, map[], OrderBody(config, code, qty, price), now, exchange, reply);
    }

    /** `sell_stock`: a cash sell under TTTC0801U (VTTC0801U in paper mode). */
    method SellStock(code: string, qty: int, price: int, now: int, exchange: Result<Token>, reply: HttpReply)
      returns (sent: Option<HttpRequest>, r: Result<ApiData>)
      modifies this, store
      ensures RefreshedBy(now, exchange)
      ensures sent.Some? <==> Access(old(token), now, exchange).Ok?
      ensures sent.Some? ==> sent.value.verb == "POST" && sent.value.url == config.baseUrl + OrderPath
      ensures sent.Some? ==> sent.value.headers.trId == (if config.mode == "paper" then "VTTC0801U" else SellTrId)
      ensures sent.Some? ==> sent.value.payload == OrderBody(config, code, qty, price)
      ensures sent.Some? ==> r == Outcome(reply)
      ensures sent.None? ==> r.Err?
    {
      sent, r := Request("POST", OrderPath, SellTrId, map[], OrderBody(config, code, qty, price), now, exchange, reply);
    }
  }

  /** The module global `_client`. */
  class ClientSlot {
    var client: Client?

    constructor ()
      ensures client == null
    {
      client := null;
    }

    /** `get_kis_client`: builds the client on the first call and returns that same client afterwards. */
    method GetKisClient(config: Config, store: TokenStore, now: int) returns (c: Client)
      modifies this
      ensures client == c
      ensures old(client) != null ==> c == old(client)
      ensures old(client) == null ==> fresh(c) && c.config == config && c.store == store
                                      && c.token == LoadedToken(store.file, now) && c.exchanges == 0
    {
      if client == null {
        client := new Client(config, store, now);
      }
      c := client;
    }
  }
}
