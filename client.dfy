/**
 * The KIS REST client. Its state is the cached bearer token with its expiry instant and
 * the time of the last send. Every call obtains a token, builds its headers, sends
 * through the throttle with up to three attempts (retrying only 5xx), checks the HTTP
 * status and then interprets the JSON envelope.
 *
 * The network, the clocks and the sleeps are inputs: a `TokenRound` holds the clock
 * readings and the reply of one token refresh, a `SendRound` the replies, throttle
 * clock readings and extra delays of one retried request. Times are integer
 * milliseconds; token expiry uses the wall clock, the throttle the monotonic clock.
 */
module Client {
  import opened Wrappers
  import opened JsonValue
  import opened Models
  import Endpoints
  import Text

  const RequestIntervalMs := 250
  const MaxRetries := 3
  const RetryBackoffMs := 500
  /** Seconds subtracted from the token lifetime the server declares. */
  const TokenMarginS := 60

  datatype HttpResponse = HttpResponse(status: int, body: Json)

  /** One request as it goes on the wire. */
  datatype Request = Request(
    verb: string, path: string,
    headers: map<string, string>, params: map<string, string>, body: map<string, string>)

  datatype ClientError =
    | Transport(reason: string)                      // a network exception, propagated unchanged
    | HttpStatus(status: int)                        // raise_for_status, or the last 5xx after all attempts
    | ApiError(api: string, msg_cd: Json, msg1: Json) // the rt_cd gate's RuntimeError
    | Malformed(what: string)                        // KeyError / TypeError / AttributeError on the envelope
    | Invalid(invalid: ValidationError)               // a record failed validation
    | Lookup(missing: Endpoints.LookupError)          // no tr_id for the (operation, mode) pair

  type Reply = Result<HttpResponse, ClientError>

  /** Clock readings and server reply of one `get_token` call. */
  datatype TokenRound = TokenRound(checkedAt: int, recheckedAt: int, reply: Reply, receivedAt: int)

  /** Server replies, throttle clock readings and sleep overshoot of each attempt of one request. */
  datatype SendRound = SendRound(replies: seq<Reply>, clock: seq<int>, drift: seq<nat>)

  predicate Covers(s: SendRound)
  {
    |s.replies| >= MaxRetries && |s.clock| >= MaxRetries && |s.drift| >= MaxRetries
  }

  // ---------------------------------------------------------------------------
  // token cache
  // ---------------------------------------------------------------------------

  /** The cached token is used as long as it is non-empty and the clock is before its expiry. */
  predicate TokenUsable(token: Option<string>, expires: Option<int>, now: int)
  {
    token.Some? && token.value != "" && expires.Some? && now < expires.value
  }

  /** The expiry recorded for a token whose lifetime is `expiresIn` seconds, received at `now`. */
  function ExpiryAfter(now: int, expiresIn: int): (t: int)
    ensures expiresIn > TokenMarginS ==> t > now
    ensures t + TokenMarginS * 1000 == now + expiresIn * 1000
  {
    now + (expiresIn - TokenMarginS) * 1000
  }

  /** `raise_for_status`: httpx raises for every status outside 2xx. */
  function CheckStatus(resp: HttpResponse): (r: Result<Json, ClientError>)
    ensures r.Ok? <==> 200 <= resp.status < 300
    ensures r.Ok? ==> r.value == resp.body
    ensures r.Err? ==> r.error == HttpStatus(resp.status)
  {
    if 200 <= resp.status < 300 then Ok(resp.body) else Err(HttpStatus(resp.status))
  }

  /** `TokenResponse(**resp.json())` after `raise_for_status`. */
  function TokenFromReply(reply: Reply): Result<TokenResponse, ClientError>
  {
    if reply.Err? then Err(reply.error)
    else match CheckStatus(reply.value)
      case Err(e) => Err(e)
      case Ok(body) =>
        if !body.JObj? then Err(Malformed("token body is not an object"))
        else match ParseTokenResponse(body.fields)
          case Err(v) => Err(Invalid(v))
          case Ok(t) => Ok(t)
  }

  /** The token cache: the bearer token and its expiry instant. */
  datatype TokenCache = TokenCache(token: Option<string>, expires: Option<int>)

  /** `get_token` answers from the cache when the token is usable at either check. */
  predicate Cached(c: TokenCache, round: TokenRound)
  {
    TokenUsable(c.token, c.expires, round.checkedAt) || TokenUsable(c.token, c.expires, round.recheckedAt)
  }

  /** What `get_token` returns: the cached token, the refreshed one, or the refresh error. */
  function TokenOutcome(c: TokenCache, round: TokenRound): (r: Result<string, ClientError>)
    ensures Cached(c, round) ==> r == Ok(c.token.value)
    ensures !Cached(c, round) ==> r.Ok? == TokenFromReply(round.reply).Ok?
    ensures !Cached(c, round) && TokenFromReply(round.reply).Err? ==> r == Err(TokenFromReply(round.reply).error)
  {
    if Cached(c, round) then Ok(c.token.value)
    else match TokenFromReply(round.reply)
      case Err(e) => Err(e)
      case Ok(t) => Ok(t.access_token)
  }

  /** The cache `get_token` leaves: replaced only by a successful refresh. */
  function CacheAfter(c: TokenCache, round: TokenRound): (d: TokenCache)
    ensures TokenOutcome(c, round).Ok? ==> d.token == Some(TokenOutcome(c, round).value)
    ensures TokenOutcome(c, round).Err? || Cached(c, round) ==> d == c
  {
    if Cached(c, round) then c
    else match TokenFromReply(round.reply)
      case Err(_) => c
      case Ok(t) => TokenCache(Some(t.access_token), Some(ExpiryAfter(round.receivedAt, t.expires_in)))
  }

  /** A token just obtained stays usable until its expiry, so the next call reuses it. */
  lemma RefreshedTokenReused(c: TokenCache, round: TokenRound, next: TokenRound)
    requires !Cached(c, round) && TokenFromReply(round.reply).Ok?
    requires TokenFromReply(round.reply).value.access_token != ""
    requires next.checkedAt < CacheAfter(c, round).expires.value
    ensures Cached(CacheAfter(c, round), next)
    ensures TokenOutcome(CacheAfter(c, round), next) == TokenOutcome(c, round)
    ensures CacheAfter(CacheAfter(c, round), next) == CacheAfter(c, round)
  {
  }

  /**
   * `_get_hashkey` after the retried request: `raise_for_status`, then `resp.json()["HASH"]`,
   * which is returned whatever its type; only a missing key or a body that is not an object raises.
   */
  function HashkeyOf(result: Reply): (r: Result<Json, ClientError>)
    ensures result.Err? ==> r == Err(result.error)
    ensures result.Ok? && !(200 <= result.value.status < 300) ==> r == Err(HttpStatus(result.value.status))
    ensures r.Ok? <==> result.Ok? && 200 <= result.value.status < 300 && result.value.body.JObj?
                       && "HASH" in result.value.body.fields
    ensures r.Ok? ==> r.value == result.value.body.fields["HASH"]
  {
    match result
    case Err(e) => Err(e)
    case Ok(resp) =>
      match CheckStatus(resp)
      case Err(e) => Err(e)
      case Ok(data) =>
        if data.JObj? && "HASH" in data.fields then Ok(data.fields["HASH"])
        else Err(Malformed("HASH"))
  }

  // ---------------------------------------------------------------------------
  // throttle and retry
  // ---------------------------------------------------------------------------

  /** The sleep `_throttle` takes: the rest of the 250 ms interval since the last send, if any. */
  function ThrottleWait(last: int, now: int): (w: nat)
    ensures now + w >= last + RequestIntervalMs
    ensures w == 0 <==> now - last >= RequestIntervalMs
    ensures w > 0 ==> now + w == last + RequestIntervalMs
  {
    if now - last < RequestIntervalMs then RequestIntervalMs - (now - last) else 0
  }

  /** Whatever the clock says, the recorded send time moves forward by at least the interval. */
  lemma ThrottleSpacing(last: int, now: int, drift: nat)
    ensures var next := now + ThrottleWait(last, now) + drift;
      next >= last + RequestIntervalMs && next >= now
  {
  }

  function Pow2(k: nat): (p: nat)
    ensures p >= 1
  {
    if k == 0 then 1 else 2 * Pow2(k - 1)
  }

  /** The sleep after failed attempt `k` (counting from 0): 500 ms doubling each time. */
  function BackoffMs(k: nat): nat
  {
    RetryBackoffMs * Pow2(k)
  }

  lemma BackoffSchedule()
    ensures BackoffMs(0) == 500 && BackoffMs(1) == 1000 && BackoffMs(2) == 2000
    ensures forall k: nat :: BackoffMs(k + 1) == 2 * BackoffMs(k)
  {
  }

  predicate ServerError(reply: Reply)
  {
    reply.Ok? && reply.value.status >= 500
  }

  /** What a retried request produces and how many requests it made. */
  datatype Attempted = Attempted(result: Reply, attempts: nat)

  /**
   * The outcome of attempts `k` onwards: the first reply that is not a 5xx (a response or
   * a network exception) is returned as it is; a 5xx on the last attempt becomes the error.
   */
  function RetryFrom(replies: seq<Reply>, k: nat): (a: Attempted)
    requires k < MaxRetries <= |replies|
    ensures k < a.attempts <= MaxRetries
    ensures forall j :: k <= j < a.attempts - 1 ==> ServerError(replies[j])
    ensures !ServerError(replies[a.attempts - 1]) ==> a.result == replies[a.attempts - 1]
    ensures ServerError(replies[a.attempts - 1]) ==>
      a.attempts == MaxRetries && a.result == Err(HttpStatus(replies[MaxRetries - 1].value.status))
    decreases MaxRetries - k
  {
    if !ServerError(replies[k]) then Attempted(replies[k], k + 1)
    else if k + 1 == MaxRetries then Attempted(Err(HttpStatus(replies[k].value.status)), MaxRetries)
    else RetryFrom(replies, k + 1)
  }

  function Retry(replies: seq<Reply>): Attempted
    requires MaxRetries <= |replies|
  {
    RetryFrom(replies, 0)
  }

  /** The number of 5xx replies seen, which is also the number of backoff sleeps taken. */
  function Failures(replies: seq<Reply>): nat
    requires MaxRetries <= |replies|
  {
    var a := Retry(replies);
    if ServerError(replies[a.attempts - 1]) then a.attempts else a.attempts - 1
  }

  /** A reply below 500, including a 4xx, is returned at once, unchanged. */
  lemma {:induction false} RetryReturnsFirstNonServerError(replies: seq<Reply>, k: nat)
    requires MaxRetries <= |replies| && k < MaxRetries
    requires forall j :: 0 <= j < k ==> ServerError(replies[j])
    requires replies[k].Ok? && replies[k].value.status < 500
    ensures Retry(replies) == Attempted(replies[k], k + 1)
  {
  }

  /** Three 5xx replies: exactly three requests, three sleeps, and the last status is raised. */
  lemma {:induction false} PersistentServerErrorExhaustsRetries(replies: seq<Reply>)
    requires MaxRetries <= |replies|
    requires forall j :: 0 <= j < MaxRetries ==> ServerError(replies[j])
    ensures Retry(replies) == Attempted(Err(HttpStatus(replies[2].value.status)), 3)
    ensures Failures(replies) == 3
  {
  }

  /** A 503 followed by 200s is retried once and returns the 200. */
  lemma RetryRecoversAfterOne503(ok: HttpResponse, rest: seq<Reply>)
    requires 200 <= ok.status < 300
    requires |rest| >= 1
    ensures var replies := [Ok(HttpResponse(503, JNull)), Ok(ok)] + rest;
      Retry(replies) == Attempted(Ok(ok), 2) && Failures(replies) == 1
  {
    var replies := [Ok(HttpResponse(503, JNull)), Ok(ok)] + rest;
    RetryReturnsFirstNonServerError(replies, 1);
  }

  // ---------------------------------------------------------------------------
  // headers and request bodies
  // ---------------------------------------------------------------------------

  const HeaderNames: set<string> := {"Content-Type", "authorization", "appkey", "appsecret", "tr_id", "custtype"}

  /** `_get_headers`: the bearer token, the app credentials, the operation's tr_id, customer type "P". */
  function Headers(token: string, appKey: string, appSecret: string, trId: string): (h: map<string, string>)
    ensures h.Keys == HeaderNames
    ensures h["authorization"] == "Bearer " + token && h["tr_id"] == trId && h["custtype"] == "P"
    ensures h["appkey"] == appKey && h["appsecret"] == appSecret
  {
    map[
      "Content-Type" := "application/json; charset=utf-8",
      "authorization" := "Bearer " + token,
      "appkey" := appKey,
      "appsecret" := appSecret,
      "tr_id" := trId,
      "custtype" := "P"]
  }

  /** An order's headers are the usual ones plus the body's hashkey. */
  lemma SignedHeaders(token: string, appKey: string, appSecret: string, trId: string, hashkey: string)
    ensures var signed := Headers(token, appKey, appSecret, trId)["hashkey" := hashkey];
      && signed.Keys == HeaderNames + {"hashkey"}
      && "tr_id" in signed && signed["tr_id"] == trId && signed["custtype"] == "P"
  {
  }

  /** The hashkey request carries the app credentials only, no bearer token. */
  function HashkeyHeaders(appKey: string, appSecret: string): map<string, string>
  {
    map["Content-Type" := "application/json; charset=utf-8", "appkey" := appKey, "appsecret" := appSecret]
  }

  /**
   * The order body: quantity and unit price are rendered in decimal as given, and the price
   * is not checked against the order type.
   */
  function OrderBody(accountNo: string, acntPrdtCd: string, stockCode: string, orderType: string, qty: int, price: int)
    : (b: map<string, string>)
    ensures b.Keys == {"CANO", "ACNT_PRDT_CD", "PDNO", "ORD_DVSN", "ORD_QTY", "ORD_UNPR"}
    ensures b["CANO"] == accountNo && b["ACNT_PRDT_CD"] == acntPrdtCd
    ensures b["PDNO"] == stockCode && b["ORD_DVSN"] == orderType
  {
    map[
      "CANO" := accountNo,
      "ACNT_PRDT_CD" := acntPrdtCd,
      "PDNO" := stockCode,
      "ORD_DVSN" := orderType,
      "ORD_QTY" := Text.IntToString(qty),
      "ORD_UNPR" := Text.IntToString(price)]
  }

  /** The quantity and price strings of an order parse back to the integers given. */
  lemma OrderAmountsRoundTrip(accountNo: string, acntPrdtCd: string, stockCode: string, orderType: string, qty: int, price: int)
    ensures var b := OrderBody(accountNo, acntPrdtCd, stockCode, orderType, qty, price);
      Text.ParseInt(b["ORD_QTY"]) == Some(qty) && Text.ParseInt(b["ORD_UNPR"]) == Some(price)
  {
    Text.ParseIntOfIntToString(qty);
    Text.ParseIntOfIntToString(price);
  }

  function PriceParams(stockCode: string): map<string, string>
  {
    map["fid_cond_mrkt_div_code" := "J", "fid_input_iscd" := stockCode]
  }

  function DailyParams(stockCode: string, period: string): map<string, string>
  {
    map[
      "fid_cond_mrkt_div_code" := "J", "fid_input_iscd" := stockCode,
      "fid_input_date_1" := "", "fid_input_date_2" := "",
      "fid_period_div_code" := period, "fid_org_adj_prc" := "0"]
  }

  function BalanceParams(accountNo: string, acntPrdtCd: string): map<string, string>
  {
    map[
      "CANO" := accountNo, "ACNT_PRDT_CD" := acntPrdtCd,
      "AFHR_FLPR_YN" := "N", "OFL_YN" := "", "INQR_DVSN" := "01", "UNPR_DVSN" := "01",
      "FUND_STTL_ICLD_YN" := "N", "FNCG_AMT_AUTO_RDPT_YN" := "N", "PRCS_DVSN" := "01",
      "CTX_AREA_FK100" := "", "CTX_AREA_NK100" := ""]
  }

  // ---------------------------------------------------------------------------
  // response interpretation
  // ---------------------------------------------------------------------------

  /** `data.get("rt_cd") != "0"` raises with the message code and text; `data` must be a dict. */
  function Gate(api: string, resp: HttpResponse): (r: Result<map<string, Json>, ClientError>)
    ensures r.Ok? <==> 200 <= resp.status < 300 && resp.body.JObj? && Get(resp.body.fields, "rt_cd") == JStr("0")
    ensures r.Ok? ==> r.value == resp.body.fields
    ensures 200 <= resp.status < 300 && resp.body.JObj? && Get(resp.body.fields, "rt_cd") != JStr("0") ==>
      r == Err(ApiError(api, Get(resp.body.fields, "msg_cd"), Get(resp.body.fields, "msg1")))
  {
    match CheckStatus(resp)
    case Err(e) => Err(e)
    case Ok(body) =>
      if !body.JObj? then Err(Malformed("response body is not an object"))
      else if Get(body.fields, "rt_cd") != JStr("0") then
        Err(ApiError(api, Get(body.fields, "msg_cd"), Get(body.fields, "msg1")))
      else Ok(body.fields)
  }

  /** `get_price` after the request: the gate, then `StockPrice(**data["output"])`. */
  function PriceFromResponse(resp: HttpResponse): Result<StockPrice, ClientError>
  {
    match Gate("price", resp)
    case Err(e) => Err(e)
    case Ok(data) =>
      if "output" !in data then Err(Malformed("output"))
      else if !data["output"].JObj? then Err(Malformed("output is not an object"))
      else match ParseStockPrice(data["output"].fields)
        case Err(v) => Err(Invalid(v))
        case Ok(p) => Ok(p)
  }

  /** Builds each record of a list; every member must be a JSON object that validates. */
  function ParseDailyList(items: seq<Json>): (r: Result<seq<DailyPrice>, ClientError>)
    ensures r.Ok? ==> |r.value| == |items|
    ensures r.Ok? ==> forall i :: 0 <= i < |items| ==>
      items[i].JObj? && ParseDailyPrice(items[i].fields) == Ok(r.value[i])
  {
    if items == [] then Ok([])
    else if !items[0].JObj? then Err(Malformed("daily row is not an object"))
    else match ParseDailyPrice(items[0].fields)
      case Err(v) => Err(Invalid(v))
      case Ok(p) =>
        match ParseDailyList(items[1..])
        case Err(e) => Err(e)
        case Ok(ps) => Ok([p] + ps)
  }

  /**
   * `get_daily_prices` after the request: `data.get("output2", [])[:count]`, each row built.
   * An empty string slices to nothing; any other non-list cannot be sliced or iterated.
   */
  function DailyFromResponse(resp: HttpResponse, count: int): Result<seq<DailyPrice>, ClientError>
  {
    match Gate("daily-price", resp)
    case Err(e) => Err(e)
    case Ok(data) =>
      match GetOr(data, "output2", JArr([]))
      case JArr(items) => ParseDailyList(Text.PyTake(items, count))
      case JStr(s) => if Text.PyTake(s, count) == "" then Ok([]) else Err(Malformed("output2 is a string"))
      case _ => Err(Malformed("output2 cannot be sliced"))
  }

  /** `get_daily_prices` keeps the first min(count, rows) rows, in the order the API sent them. */
  lemma DailyKeepsLeadingRows(resp: HttpResponse, count: nat, items: seq<Json>)
    requires Gate("daily-price", resp).Ok?
    requires Get(resp.body.fields, "output2") == JArr(items)
    requires forall i :: 0 <= i < |items| ==> items[i].JObj? && ParseDailyPrice(items[i].fields).Ok?
    ensures var r := DailyFromResponse(resp, count);
      && r.Ok?
      && |r.value| == (if count < |items| then count else |items|)
      && forall i :: 0 <= i < |r.value| ==> Ok(r.value[i]) == ParseDailyPrice(items[i].fields)
  {
    ParseListTotal(Text.PyTake(items, count));
  }

  lemma {:induction false} ParseListTotal(items: seq<Json>)
    requires forall i :: 0 <= i < |items| ==> items[i].JObj? && ParseDailyPrice(items[i].fields).Ok?
    ensures ParseDailyList(items).Ok?
    decreases |items|
  {
    if items != [] {
      ParseListTotal(items[1..]);
    }
  }

  /**
   * `_place_order` after the request: no rt_cd gate; a truthy `output` must be an object;
   * missing envelope fields become "", present ones must be strings.
   */
  function OrderFromResponse(resp: HttpResponse): Result<OrderResponse, ClientError>
  {
    match CheckStatus(resp)
    case Err(e) => Err(e)
    case Ok(body) =>
      if !body.JObj? then Err(Malformed("response body is not an object"))
      else
        var data := body.fields;
        var out: Result<Option<OrderOutput>, ClientError> :=
          if !Truthy(Get(data, "output")) then Ok(None)
          else if !data["output"].JObj? then Err(Malformed("output is not an object"))
          else match ParseOrderOutput(data["output"].fields)
            case Err(v) => Err(Invalid(v))
            case Ok(o) => Ok(Some(o));
        if out.Err? then Err(out.error)
        else if !(GetOr(data, "rt_cd", JStr("")).JStr? && GetOr(data, "msg_cd", JStr("")).JStr?
                  && GetOr(data, "msg1", JStr("")).JStr?) then Err(Invalid(ValidationError("OrderResponse")))
        else Ok(OrderResponse(
          GetOr(data, "rt_cd", JStr("")).s, GetOr(data, "msg_cd", JStr("")).s,
          GetOr(data, "msg1", JStr("")).s, out.value))
  }

  /** An order response is returned whatever its rt_cd says; absent envelope fields read as "". */
  lemma OrderSkipsGate(rtCd: string)
    ensures OrderFromResponse(HttpResponse(200, JObj(map["rt_cd" := JStr(rtCd)]))) == Ok(OrderResponse(rtCd, "", "", None))
    ensures OrderFromResponse(HttpResponse(200, JObj(map[]))) == Ok(OrderResponse("", "", "", None))
  {
  }

  /**
   * The totals block: a non-empty list is replaced by its first element, anything else is
   * used as it is (so an empty list stays a list).
   */
  function TotalBlock(totals: Json): (b: Json)
    ensures totals.JArr? && totals.items != [] ==> b == totals.items[0]
    ensures !(totals.JArr? && totals.items != []) ==> b == totals
  {
    if totals.JArr? && totals.items != [] then totals.items[0] else totals
  }

  function ParseBalanceList(items: seq<Json>): (r: Result<seq<BalanceItem>, ClientError>)
    ensures r.Ok? ==> |r.value| == |items|
    ensures r.Ok? ==> forall i :: 0 <= i < |items| ==>
      items[i].JObj? && ParseBalanceItem(items[i].fields) == Ok(r.value[i])
  {
    if items == [] then Ok([])
    else if !items[0].JObj? then Err(Malformed("holding is not an object"))
    else match ParseBalanceItem(items[0].fields)
      case Err(v) => Err(Invalid(v))
      case Ok(b) =>
        match ParseBalanceList(items[1..])
        case Err(e) => Err(e)
        case Ok(bs) => Ok([b] + bs)
  }

  /** Iterating `data.get("output1", [])`: a list, or an empty string or dict (which yield nothing). */
  function HoldingsOf(output1: Json): Result<seq<BalanceItem>, ClientError>
  {
    match output1
    case JArr(items) => ParseBalanceList(items)
    case JStr(s) => if s == "" then Ok([]) else Err(Malformed("output1 is a string"))
    case JObj(f) => if f == map[] then Ok([]) else Err(Malformed("output1 is an object"))
    case _ => Err(Malformed("output1 is not iterable"))
  }

  /** `get_balance` after the request. */
  function BalanceFromResponse(resp: HttpResponse): Result<AccountBalance, ClientError>
  {
    match Gate("balance", resp)
    case Err(e) => Err(e)
    case Ok(data) => BalanceOf(data)
  }

  /** The holdings of `output1` and the totals of the unwrapped `output2`. */
  function BalanceOf(data: map<string, Json>): Result<AccountBalance, ClientError>
  {
    match HoldingsOf(GetOr(data, "output1", JArr([])))
    case Err(e) => Err(e)
    case Ok(items) => BalanceOfBlock(items, TotalBlock(GetOr(data, "output2", JArr([JObj(map[])]))))
  }

  function BalanceOfBlock(items: seq<BalanceItem>, block: Json): Result<AccountBalance, ClientError>
  {
    if !block.JObj? then Err(Malformed("totals block has no get"))
    else
      var amt := GetOr(block.fields, "tot_evlu_amt", JStr("0"));
      var pfls := GetOr(block.fields, "evlu_pfls_smtl_amt", JStr("0"));
      if !amt.JStr? || !pfls.JStr? then Err(Invalid(ValidationError("AccountBalance")))
      else Ok(AccountBalance(items, amt.s, pfls.s))
  }

  /** `get_available_cash` after the request: `int(total_block.get("dnca_tot_amt", "0"))`. */
  function CashFromResponse(resp: HttpResponse): Result<int, ClientError>
  {
    match Gate("available-cash", resp)
    case Err(e) => Err(e)
    case Ok(data) => CashOfBlock(TotalBlock(GetOr(data, "output2", JArr([JObj(map[])]))))
  }

  function CashOfBlock(block: Json): Result<int, ClientError>
  {
    if !block.JObj? then Err(Malformed("totals block has no get"))
    else match PyInt(GetOr(block.fields, "dnca_tot_amt", JStr("0")))
      case None => Err(Malformed("dnca_tot_amt is not an integer"))
      case Some(n) => Ok(n)
  }

  function WithField(resp: HttpResponse, key: string, value: Json): HttpResponse
    requires resp.body.JObj?
  {
    HttpResponse(resp.status, JObj(resp.body.fields[key := value]))
  }

  /** A one-element totals list and the bare totals object give the same balance and cash. */
  lemma TotalsShapesAgree(resp: HttpResponse, totals: map<string, Json>)
    requires resp.body.JObj?
    ensures BalanceFromResponse(WithField(resp, "output2", JArr([JObj(totals)])))
         == BalanceFromResponse(WithField(resp, "output2", JObj(totals)))
    ensures CashFromResponse(WithField(resp, "output2", JArr([JObj(totals)])))
         == CashFromResponse(WithField(resp, "output2", JObj(totals)))
  {
    var r1 := WithField(resp, "output2", JArr([JObj(totals)]));
    var r2 := WithField(resp, "output2", JObj(totals));
    var f1, f2 := r1.body.fields, r2.body.fields;
    assert Get(f1, "rt_cd") == Get(f2, "rt_cd");
    assert Get(f1, "msg_cd") == Get(f2, "msg_cd") && Get(f1, "msg1") == Get(f2, "msg1");
    assert GetOr(f1, "output1", JArr([])) == GetOr(f2, "output1", JArr([]));
    assert TotalBlock(GetOr(f1, "output2", JArr([JObj(map[])]))) == JObj(totals);
    assert TotalBlock(GetOr(f2, "output2", JArr([JObj(map[])]))) == JObj(totals);
    assert BalanceOf(f1) == BalanceOf(f2);
  }

  /** An empty totals list is not unwrapped, and reading a total from it fails. */
  lemma EmptyTotalsListFails(resp: HttpResponse)
    requires Gate("balance", resp).Ok? && Gate("available-cash", resp).Ok?
    requires HoldingsOf(GetOr(resp.body.fields, "output1", JArr([]))).Ok?
    ensures BalanceFromResponse(WithField(resp, "output2", JArr([]))).Err?
    ensures CashFromResponse(WithField(resp, "output2", JArr([]))).Err?
  {
  }

  /** Absent totals read as "0". */
  lemma MissingTotalsReadZero(resp: HttpResponse)
    requires Gate("balance", resp).Ok?
    requires HoldingsOf(GetOr(resp.body.fields, "output1", JArr([]))).Ok?
    ensures var b := BalanceFromResponse(WithField(resp, "output2", JObj(map[])));
      b.Ok? && b.value.total_evlu_amt == "0" && b.value.total_evlu_pfls_amt == "0"
  {
    var r := WithField(resp, "output2", JObj(map[]));
    assert Gate("balance", r).Ok?;
    assert GetOr(r.body.fields, "output1", JArr([])) == GetOr(resp.body.fields, "output1", JArr([]));
  }

  /** A successful envelope without either section is the default `AccountBalance()`. */
  lemma AbsentSectionsGiveEmptyBalance(resp: HttpResponse)
    requires Gate("balance", resp).Ok?
    requires "output1" !in Gate("balance", resp).value && "output2" !in Gate("balance", resp).value
    ensures BalanceFromResponse(resp) == Ok(EmptyBalance)
  {
    var data := Gate("balance", resp).value;
    assert HoldingsOf(GetOr(data, "output1", JArr([]))) == Ok([]);
    assert TotalBlock(GetOr(data, "output2", JArr([JObj(map[])]))) == JObj(map[]);
  }

  /** An absent deposit total reads as 0 cash. */
  lemma MissingCashReadsZero(resp: HttpResponse)
    requires Gate("available-cash", resp).Ok?
    ensures CashFromResponse(WithField(resp, "output2", JObj(map[]))) == Ok(0)
  {
    var r := WithField(resp, "output2", JObj(map[]));
    assert Gate("available-cash", r) == Ok(r.body.fields);
    assert GetOr(r.body.fields, "output2", JArr([JObj(map[])])) == JObj(map[]);
    assert PyInt(JStr("0")) == Some(0) by {
      Text.ParseUnsigned("0");
      assert Text.DigitsValue("0") == 0 by { assert "0"[..0] == []; }
    }
  }

  /** The four gated calls fail with the API's message exactly when rt_cd is not "0". */
  lemma GatedCallsFailOnNonZeroCode(resp: HttpResponse)
    requires 200 <= resp.status < 300 && resp.body.JObj?
    requires Get(resp.body.fields, "rt_cd") != JStr("0")
    ensures var m, t := Get(resp.body.fields, "msg_cd"), Get(resp.body.fields, "msg1");
      && PriceFromResponse(resp) == Err(ApiError("price", m, t))
      && DailyFromResponse(resp, 0) == Err(ApiError("daily-price", m, t))
      && BalanceFromResponse(resp) == Err(ApiError("balance", m, t))
      && CashFromResponse(resp) == Err(ApiError("available-cash", m, t))
  {
  }

  // ---------------------------------------------------------------------------
  // the client object
  // ---------------------------------------------------------------------------

  class KisClient {
    const appKey: string
    const appSecret: string
    const accountNo: string
    const acntPrdtCd: string
    const tradingMode: string

    var token: Option<string>
    /** Wall-clock milliseconds. */
    var tokenExpires: Option<int>
    /** Monotonic-clock milliseconds of the last send; 0 before the first. */
    var lastRequestTime: int

    constructor (appKey: string, appSecret: string, accountNo: string, acntPrdtCd: string, tradingMode: string)
      ensures this.appKey == appKey && this.appSecret == appSecret && this.accountNo == accountNo
      ensures this.acntPrdtCd == acntPrdtCd && this.tradingMode == tradingMode
      ensures token == None && tokenExpires == None && lastRequestTime == 0
    {
      this.appKey := appKey;
      this.appSecret := appSecret;
      this.accountNo := accountNo;
      this.acntPrdtCd := acntPrdtCd;
      this.tradingMode := tradingMode;
      token := None;
      tokenExpires := None;
      lastRequestTime := 0;
    }

    function Cache(): TokenCache
      reads this
    {
      TokenCache(token, tokenExpires)
    }

    function TokenRequest(): Request
      reads this
    {
      Request("POST", Endpoints.Paths["token"], map[], map[],
        map["grant_type" := "client_credentials", "appkey" := appKey, "appsecret" := appSecret])
    }

    /**
     * `get_token`: the cached token while it is usable (checked before and again after the
     * lock), otherwise one request whose answer replaces the cache, expiring 60 s early.
     */
    method GetToken(round: TokenRound) returns (r: Result<string, ClientError>, sent: Option<Request>)
      modifies this`token, this`tokenExpires
      ensures var cached := TokenUsable(old(token), old(tokenExpires), round.checkedAt)
                         || TokenUsable(old(token), old(tokenExpires), round.recheckedAt);
        && (cached ==> sent == None && r == Ok(old(token).value) && token == old(token) && tokenExpires == old(tokenExpires))
        && (!cached ==> sent == Some(TokenRequest()))
        && (!cached && TokenFromReply(round.reply).Ok? ==>
              var t := TokenFromReply(round.reply).value;
              r == Ok(t.access_token) && token == Some(t.access_token)
              && tokenExpires == Some(ExpiryAfter(round.receivedAt, t.expires_in)))
        && (!cached && TokenFromReply(round.reply).Err? ==>
              r == Err(TokenFromReply(round.reply).error) && token == old(token) && tokenExpires == old(tokenExpires))
      ensures r == TokenOutcome(old(Cache()), round) && Cache() == CacheAfter(old(Cache()), round)
    {
      if TokenUsable(token, tokenExpires, round.checkedAt) {
        return Ok(token.value), None;
      }
      if TokenUsable(token, tokenExpires, round.recheckedAt) {
        return Ok(token.value), None;
      }
      sent := Some(TokenRequest());
      var reply := TokenFromReply(round.reply);
      if reply.Err? {
        return Err(reply.error), sent;
      }
      token := Some(reply.value.access_token);
      tokenExpires := Some(ExpiryAfter(round.receivedAt, reply.value.expires_in));
      r := Ok(reply.value.access_token);
    }

    /** `_throttle`: sleeps out the rest of the interval, then records the clock as the send time. */
    method Throttle(now: int, drift: nat) returns (waited: nat)
      modifies this`lastRequestTime
      ensures waited == ThrottleWait(old(lastRequestTime), now)
      ensures lastRequestTime == now + waited + drift
      ensures lastRequestTime >= old(lastRequestTime) + RequestIntervalMs
    {
      waited := ThrottleWait(lastRequestTime, now);
      lastRequestTime := now + waited + drift;
    }

    /**
     * `_request_with_retry`: throttles before each of at most three attempts, returns the
     * first reply below 500, sleeps 500 * 2^k ms after 5xx number k (also after the last),
     * and raises the last 5xx when all three fail.
     */
    method RequestWithRetry(round: SendRound) returns (r: Reply, sendTimes: seq<int>, sleeps: seq<nat>)
      requires Covers(round)
      modifies this`lastRequestTime
      ensures r == Retry(round.replies).result
      ensures |sendTimes| == Retry(round.replies).attempts
      ensures |sleeps| == Failures(round.replies)
      ensures forall k :: 0 <= k < |sleeps| ==> sleeps[k] == BackoffMs(k)
      ensures sendTimes[0] >= old(lastRequestTime) + RequestIntervalMs
      ensures forall k :: 0 <= k < |sendTimes| - 1 ==> sendTimes[k] + RequestIntervalMs <= sendTimes[k + 1]
      ensures lastRequestTime == sendTimes[|sendTimes| - 1]
      ensures lastRequestTime >= old(lastRequestTime) + RequestIntervalMs * |sendTimes|
    {
      var attempt := 0;
      sendTimes, sleeps := [], [];
      while attempt < MaxRetries
        invariant 0 <= attempt <= MaxRetries
        invariant |sendTimes| == attempt && |sleeps| == attempt
        invariant forall j :: 0 <= j < attempt ==> ServerError(round.replies[j])
        invariant forall k :: 0 <= k < attempt ==> sleeps[k] == BackoffMs(k)
        invariant attempt > 0 ==> sendTimes[0] >= old(lastRequestTime) + RequestIntervalMs
        invariant forall k :: 0 <= k < attempt - 1 ==> sendTimes[k] + RequestIntervalMs <= sendTimes[k + 1]
        invariant lastRequestTime == if attempt == 0 then old(lastRequestTime) else sendTimes[attempt - 1]
        invariant lastRequestTime >= old(lastRequestTime) + RequestIntervalMs * attempt
        invariant attempt < MaxRetries ==> Retry(round.replies) == RetryFrom(round.replies, attempt)
      {
        var _ := Throttle(round.clock[attempt], round.drift[attempt]);
        sendTimes := sendTimes + [lastRequestTime];
        var reply := round.replies[attempt];
        if !ServerError(reply) {
          assert Retry(round.replies) == Attempted(reply, attempt + 1);
          return reply, sendTimes, sleeps;
        }
        sleeps := sleeps + [BackoffMs(attempt)];
        attempt := attempt + 1;
      }
      r := Err(HttpStatus(round.replies[MaxRetries - 1].value.status));
    }

    /** The hashkey of an order body, fetched through the retry path. */
    method GetHashkey(body: map<string, string>, round: SendRound) returns (r: Result<Json, ClientError>, sent: Request)
      requires Covers(round)
      modifies this`lastRequestTime
      ensures sent == Request("POST", Endpoints.Paths["hashkey"], HashkeyHeaders(appKey, appSecret), map[], body)
      ensures Retry(round.replies).result.Err? ==> r == Err(Retry(round.replies).result.error)
      ensures r.Ok? ==> exists resp :: (Retry(round.replies).result == Ok(resp)
        && 200 <= resp.status < 300 && resp.body.JObj? && Get(resp.body.fields, "HASH") == r.value)
      ensures r == HashkeyOf(Retry(round.replies).result)
      ensures lastRequestTime >= old(lastRequestTime) + RequestIntervalMs * Retry(round.replies).attempts
    {
      sent := Request("POST", Endpoints.Paths["hashkey"], HashkeyHeaders(appKey, appSecret), map[], body);
      var reply, _, _ := RequestWithRetry(round);
      if reply.Err? {
        return Err(reply.error), sent;
      }
      var checked := CheckStatus(reply.value);
      if checked.Err? {
        return Err(checked.error), sent;
      }
      var data := checked.value;
      if !data.JObj? || "HASH" !in data.fields {
        return Err(Malformed("HASH")), sent;
      }
      r := Ok(data.fields["HASH"]);
    }

    /** `_get_headers`: obtains the token first. */
    method GetHeaders(trId: string, round: TokenRound) returns (r: Result<map<string, string>, ClientError>)
      modifies this`token, this`tokenExpires
      ensures r.Ok? ==> token.Some? && r.value == Headers(token.value, appKey, appSecret, trId)
      ensures r.Ok? <==> Cached(old(Cache()), round) || TokenFromReply(round.reply).Ok?
      ensures r == match TokenOutcome(old(Cache()), round)
        case Err(e) => Err(e)
        case Ok(t) => Ok(Headers(t, appKey, appSecret, trId))
      ensures Cache() == CacheAfter(old(Cache()), round)
    {
      var t, _ := GetToken(round);
      if t.Err? {
        return Err(t.error);
      }
      r := Ok(Headers(t.value, appKey, appSecret, trId));
    }

    /** `get_price`. */
    method GetPrice(stockCode: string, tokenRound: TokenRound, round: SendRound)
      returns (r: Result<StockPrice, ClientError>, sent: Option<Request>)
      requires Covers(round)
      modifies this
      ensures Cache() == CacheAfter(old(Cache()), tokenRound)
      ensures sent.Some? <==> TokenOutcome(old(Cache()), tokenRound).Ok?
      ensures sent.None? ==> r == Err(TokenOutcome(old(Cache()), tokenRound).error) && lastRequestTime == old(lastRequestTime)
      ensures sent.Some? ==> sent.value == Request("GET", Endpoints.Paths["price"],
        Headers(token.value, appKey, appSecret, "FHKST01010100"), PriceParams(stockCode), map[])
      ensures sent.Some? ==> match Retry(round.replies).result
        case Err(e) => r == Err(e)
        case Ok(resp) => r == PriceFromResponse(resp)
      ensures sent.Some? ==> lastRequestTime >= old(lastRequestTime) + RequestIntervalMs * Retry(round.replies).attempts
    {
      Endpoints.QuoteIdsIgnoreMode(tradingMode);
      var trId := Endpoints.GetTrId("price", tradingMode).value;
      var headers := GetHeaders(trId, tokenRound);
      if headers.Err? {
        return Err(headers.error), None;
      }
      sent := Some(Request("GET", Endpoints.Paths["price"], headers.value, PriceParams(stockCode), map[]));
      var reply, _, _ := RequestWithRetry(round);
      if reply.Err? {
        return Err(reply.error), sent;
      }
      r := PriceFromResponse(reply.value);
    }

    /** `get_daily_prices`. */
    method GetDailyPrices(stockCode: string, period: string, count: int, tokenRound: TokenRound, round: SendRound)
      returns (r: Result<seq<DailyPrice>, ClientError>, sent: Option<Request>)
      requires Covers(round)
      modifies this
      ensures Cache() == CacheAfter(old(Cache()), tokenRound)
      ensures sent.Some? <==> TokenOutcome(old(Cache()), tokenRound).Ok?
      ensures sent.None? ==> r == Err(TokenOutcome(old(Cache()), tokenRound).error) && lastRequestTime == old(lastRequestTime)
      ensures sent.Some? ==> sent.value == Request("GET", Endpoints.Paths["daily_price"],
        Headers(token.value, appKey, appSecret, "FHKST01010400"), DailyParams(stockCode, period), map[])
      ensures sent.Some? ==> match Retry(round.replies).result
        case Err(e) => r == Err(e)
        case Ok(resp) => r == DailyFromResponse(resp, count)
      ensures sent.Some? ==> lastRequestTime >= old(lastRequestTime) + RequestIntervalMs * Retry(round.replies).attempts
    {
      Endpoints.QuoteIdsIgnoreMode(tradingMode);
      var trId := Endpoints.GetTrId("daily_price", tradingMode).value;
      var headers := GetHeaders(trId, tokenRound);
      if headers.Err? {
        return Err(headers.error), None;
      }
      sent := Some(Request("GET", Endpoints.Paths["daily_price"], headers.value, DailyParams(stockCode, period), map[]));
      var reply, _, _ := RequestWithRetry(round);
      if reply.Err? {
        return Err(reply.error), sent;
      }
      r := DailyFromResponse(reply.value, count);
    }

    /**
     * `_place_order` (behind `buy` and `sell`): the body is signed through the hashkey call
     * first, then the token is obtained and the order is sent with the hashkey header added.
     * A hashkey that is not a string is only rejected when httpx builds the order request,
     * after the token step and the first throttle; nothing is sent then.
     */
    method PlaceOrder(side: string, stockCode: string, qty: int, price: int, orderType: string,
                      hashRound: SendRound, tokenRound: TokenRound, round: SendRound)
      returns (r: Result<OrderResponse, ClientError>, sent: Option<Request>)
      requires Covers(hashRound) && Covers(round)
      modifies this
      ensures Endpoints.GetTrId(side, tradingMode).Err? ==>
        r == Err(Lookup(Endpoints.GetTrId(side, tradingMode).error)) && sent == None
        && Cache() == old(Cache()) && lastRequestTime == old(lastRequestTime)
      ensures var hash := HashkeyOf(Retry(hashRound.replies).result);
              var signed := Endpoints.GetTrId(side, tradingMode).Ok? && hash.Ok?;
        && (Endpoints.GetTrId(side, tradingMode).Ok? ==>
              lastRequestTime >= old(lastRequestTime) + RequestIntervalMs * Retry(hashRound.replies).attempts)
        && (Endpoints.GetTrId(side, tradingMode).Ok? && hash.Err? ==> r == Err(hash.error))
        && (signed ==> Cache() == CacheAfter(old(Cache()), tokenRound))
        && (!signed ==> Cache() == old(Cache()))
        && (signed && TokenOutcome(old(Cache()), tokenRound).Err? ==> r == Err(TokenOutcome(old(Cache()), tokenRound).error))
        && (signed && TokenOutcome(old(Cache()), tokenRound).Ok? && !hash.value.JStr? ==>
              r == Err(Malformed("hashkey header")) && sent == None
              && lastRequestTime >= old(lastRequestTime) + RequestIntervalMs * (Retry(hashRound.replies).attempts + 1))
        && (sent.Some? <==> signed && TokenOutcome(old(Cache()), tokenRound).Ok? && hash.value.JStr?)
        && (sent.Some? ==>
              lastRequestTime >= old(lastRequestTime)
                                 + RequestIntervalMs * (Retry(hashRound.replies).attempts + Retry(round.replies).attempts))
      ensures sent.Some? ==>
        && sent.value == Request("POST", Endpoints.Paths["order"],
             Headers(token.value, appKey, appSecret, Endpoints.GetTrId(side, tradingMode).value)
               ["hashkey" := HashkeyOf(Retry(hashRound.replies).result).value.s],
             map[], OrderBody(accountNo, acntPrdtCd, stockCode, orderType, qty, price))
        && sent.value.headers.Keys == HeaderNames + {"hashkey"}
      ensures sent.Some? ==> match Retry(round.replies).result
        case Err(e) => r == Err(e)
        case Ok(resp) => r == OrderFromResponse(resp)
    {
      var trId := Endpoints.GetTrId(side, tradingMode);
      if trId.Err? {
        return Err(Lookup(trId.error)), None;
      }
      var body := OrderBody(accountNo, acntPrdtCd, stockCode, orderType, qty, price);
      var hashkey, _ := GetHashkey(body, hashRound);
      if hashkey.Err? {
        return Err(hashkey.error), None;
      }
      var headers := GetHeaders(trId.value, tokenRound);
      if headers.Err? {
        return Err(headers.error), None;
      }
      if !hashkey.value.JStr? {
        var _ := Throttle(round.clock[0], round.drift[0]);
        return Err(Malformed("hashkey header")), None;
      }
      var signed := headers.value["hashkey" := hashkey.value.s];
      SignedHeaders(token.value, appKey, appSecret, trId.value, hashkey.value.s);
      sent := Some(Request("POST", Endpoints.Paths["order"], signed, map[], body));
      var reply, _, _ := RequestWithRetry(round);
      if reply.Err? {
        return Err(reply.error), sent;
      }
      r := OrderFromResponse(reply.value);
    }

    /** `get_balance`. */
    method GetBalance(tokenRound: TokenRound, round: SendRound)
      returns (r: Result<AccountBalance, ClientError>, sent: Option<Request>)
      requires Covers(round)
      modifies this
      ensures Endpoints.GetTrId("balance", tradingMode).Err? ==>
        r == Err(Lookup(Endpoints.GetTrId("balance", tradingMode).error)) && sent == None && Cache() == old(Cache())
      ensures Endpoints.GetTrId("balance", tradingMode).Ok? ==> Cache() == CacheAfter(old(Cache()), tokenRound)
      ensures sent.Some? <==> Endpoints.GetTrId("balance", tradingMode).Ok? && TokenOutcome(old(Cache()), tokenRound).Ok?
      ensures Endpoints.GetTrId("balance", tradingMode).Ok? && TokenOutcome(old(Cache()), tokenRound).Err? ==>
        r == Err(TokenOutcome(old(Cache()), tokenRound).error)
      ensures sent.None? ==> lastRequestTime == old(lastRequestTime)
      ensures sent.Some? ==> sent.value == Request("GET", Endpoints.Paths["balance"],
        Headers(token.value, appKey, appSecret, Endpoints.GetTrId("balance", tradingMode).value),
        BalanceParams(accountNo, acntPrdtCd), map[])
      ensures sent.Some? ==> match Retry(round.replies).result
        case Err(e) => r == Err(e)
        case Ok(resp) => r == BalanceFromResponse(resp)
      ensures sent.Some? ==> lastRequestTime >= old(lastRequestTime) + RequestIntervalMs * Retry(round.replies).attempts
    {
      var trId := Endpoints.GetTrId("balance", tradingMode);
      if trId.Err? {
        return Err(Lookup(trId.error)), None;
      }
      var headers := GetHeaders(trId.value, tokenRound);
      if headers.Err? {
        return Err(headers.error), None;
      }
      sent := Some(Request("GET", Endpoints.Paths["balance"], headers.value, BalanceParams(accountNo, acntPrdtCd), map[]));
      var reply, _, _ := RequestWithRetry(round);
      if reply.Err? {
        return Err(reply.error), sent;
      }
      r := BalanceFromResponse(reply.value);
    }

    /** `get_available_cash`: the balance endpoint again, reading the deposit total. */
    method GetAvailableCash(tokenRound: TokenRound, round: SendRound)
      returns (r: Result<int, ClientError>, sent: Option<Request>)
      requires Covers(round)
      modifies this
      ensures Endpoints.GetTrId("balance", tradingMode).Err? ==>
        r == Err(Lookup(Endpoints.GetTrId("balance", tradingMode).error)) && sent == None && Cache() == old(Cache())
      ensures Endpoints.GetTrId("balance", tradingMode).Ok? ==> Cache() == CacheAfter(old(Cache()), tokenRound)
      ensures sent.Some? <==> Endpoints.GetTrId("balance", tradingMode).Ok? && TokenOutcome(old(Cache()), tokenRound).Ok?
      ensures Endpoints.GetTrId("balance", tradingMode).Ok? && TokenOutcome(old(Cache()), tokenRound).Err? ==>
        r == Err(TokenOutcome(old(Cache()), tokenRound).error)
      ensures sent.None? ==> lastRequestTime == old(lastRequestTime)
      ensures sent.Some? ==> sent.value == Request("GET", Endpoints.Paths["balance"],
        Headers(token.value, appKey, appSecret, Endpoints.GetTrId("balance", tradingMode).value),
        BalanceParams(accountNo, acntPrdtCd), map[])
      ensures sent.Some? ==> match Retry(round.replies).result
        case Err(e) => r == Err(e)
        case Ok(resp) => r == CashFromResponse(resp)
      ensures sent.Some? ==> lastRequestTime >= old(lastRequestTime) + RequestIntervalMs * Retry(round.replies).attempts
    {
      var trId := Endpoints.GetTrId("balance", tradingMode);
      if trId.Err? {
        return Err(Lookup(trId.error)), None;
      }
      var headers := GetHeaders(trId.value, tokenRound);
      if headers.Err? {
        return Err(headers.error), None;
      }
      sent := Some(Request("GET", Endpoints.Paths["balance"], headers.value, BalanceParams(accountNo, acntPrdtCd), map[]));
      var reply, _, _ := RequestWithRetry(round);
      if reply.Err? {
        return Err(reply.error), sent;
      }
      r := CashFromResponse(reply.value);
    }
  }
}
