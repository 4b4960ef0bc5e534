# Agent Trading Company: a verified model of its deterministic core

This project models the parts of the Agent Trading Company trading system whose behaviour follows rules. It is written in Dafny and proves properties of those rules. The system has four language-model agents (data collector, data analyst, risk manager, trade executor). They trade Korean stocks through the KIS (Korea Investment & Securities) Open API and publish markdown reports. A small HTTP and websocket server exposes the watchlist, the reports and the trade history.

What is modelled, one Dafny module per source file:

- **`Endpoints`** (`kis/endpoints.py`): the URL table and the transaction-id table. The lookup tries the wildcard mode `"any"` first, then the exact `(operation, mode)` key.
- **`Models`** (`kis/models.py`): the response records. Every figure is a string and optional fields have fixed defaults. Parsing a JSON object into a record is a function returning `Result`.
- **`Client`** (`kis/client.py`): the `KisClient` class holds the cached token, its expiry and the last send time.
  - `GetToken` is a check-then-refresh, and the check runs twice.
  - `Throttle` enforces a 250 ms spacing.
  - `RequestWithRetry` is the three-attempt loop with a 500·2^k ms backoff.
  - The response rules are pure functions: the `rt_cd` gate, `items[:count]`, the `output2` unwrap and the order body.
  - The clock readings and server replies of each call are parameters.
- **`WsClient`** (`kis/ws_client.py`): the tick-frame parser, the subscribe message and the idempotent `subscribe` loop over the `subscribed` set. It also covers the approval-key cache and the reconnect loop. A `Session` value supplies the socket's behaviour.
- **`MarketSchedule`** (`agents/market_schedule.py`): the phase classifier over half-open intervals. Its input is a local weekday and second of the day.
- **`AppConfig`** (`config.py`):
  - mode selection and account truncation in `PostInit`;
  - the error-accumulating `Validate`;
  - the watchlist file rule and the priority file > environment > defaults.
- **`BaseAgent`** (`agents/base.py`): the idle/running/error state machine of `run`. Each pass is an input; the `Agent` class steps through them.
- **`TradeExecutor`, `RiskManager`, `DataCollector`, `DataAnalyst`** (the four agents): the holdings filters, the order dispatch, the skip-on-failure collection loop, and the section-ordered prompt builders. The shared text pieces are in `AgentContext`.
- **`Reports`** (`agents/report.py`): the report file name and template, and the newest-first listing and reading. A directory is a sequence of entries held by a `ReportManager`.
- **`Routes`** (`server/routes.py`): covers these handlers:
  - the watchlist handlers, which edit the shared `Config` object in place;
  - the trade-history scan: file stem to ISO timestamp, order result to status, with an early stop and a limit;
  - the report listings.
- **`WsManager`** (`server/ws.py`): the server's connection list. `broadcast` removes the sockets whose send failed.

These helper modules stand in for Python built-ins:

- `Wrappers`: `Option` and `Result`.
- `JsonValue`: JSON values and Python truthiness.
- `Text`: `split`, `join`, `strip`, `lower`, `int()`, `str()`, `{:,}` and slicing.
- `Clock`: `strftime` and `isoformat`.
- `Sorting`: a stable descending sort.
- `Lists`: `list.remove`.

## Model

| member | source | states |
|---|---|---|
| Endpoints.GetTrId | kis/endpoints.py:52-54 | the wildcard entry wins; otherwise the exact pair; otherwise `KeyError` carrying the pair |
| Endpoints.QuoteIdsIgnoreMode | kis/endpoints.py:51-53 | `price` and `daily_price` resolve to their fixed ids for every mode string, unknown ones included |
| Endpoints.TradingIdsNeedExactMode | kis/endpoints.py:17-27 | a trading operation resolves iff the mode is "paper" or "live", to that exact entry; `(op, "any")` is a `KeyError` |
| Endpoints.LookupDomain | kis/endpoints.py:17-30 | the lookup is defined exactly on trading ops × {paper, live} plus quote ops × every mode |
| Endpoints.PaperIdsMirrorLiveIds | kis/endpoints.py:18-27 | each paper id is the live id with its leading 'T' replaced by 'V' |
| Models.TokenResponseDefaults | kis/models.py:16-21 | a token response parses iff `access_token` is a string and `expires_in` an integer; `token_type` defaults to "Bearer" |
| Models.StockPriceOptionalDefaults | kis/models.py:37-40 | the four optional quote fields default to "" when absent |
| Models.StockPriceRequiresFields | kis/models.py:31-36 | a quote missing any of its six required fields is rejected |
| Models.StockPriceRoundTrip | kis/models.py:28-43 | parsing the JSON of a quote gives the quote back |
| Models.DailyPriceDefaults | kis/models.py:49-55 | a daily row parses iff its six required fields are strings; `prdy_ctrt` defaults to "" |
| Models.DailyPriceRoundTrip | kis/models.py:46-58 | parsing the JSON of a daily row gives the row back |
| Models.OrderOutputDefaults | kis/models.py:68-70 | every order-output field defaults to "", so `{}` is a valid empty output |
| Models.BalanceItemRoundTrip | kis/models.py:86-98 | parsing the JSON of a holding gives the holding back |
| Models.BalanceItemKeepsStrings | kis/models.py:89-95 | a holding whose quantity is a JSON number is rejected: figures stay strings |
| Client.ExpiryAfter | kis/client.py:94-96 | the expiry is the receipt time plus the lifetime minus 60 s, and lies in the future when the lifetime exceeds 60 s |
| Client.CheckStatus | kis/client.py:90 | `raise_for_status` passes iff the status is 2xx, keeping the body, else raises with the status |
| Client.TokenOutcome | kis/client.py:75-99 | a token usable at either check is returned from the cache; otherwise the refresh decides: its access token, or its error unchanged |
| Client.CacheAfter | kis/client.py:93-96 | only a successful refresh replaces the cache, and then it holds the token just returned; a cached answer or a failed refresh leaves it as it was |
| Client.RefreshedTokenReused | kis/client.py:75-96 | a non-empty token just obtained is served from the cache, unchanged, by any later call before its expiry |
| Client.HashkeyOf | kis/client.py:186-188 | a transport error or a non-2xx status is raised unchanged; a 2xx object holding `HASH` gives exactly that value, whatever its JSON type; it fails only when the body is not an object or has no `HASH` |
| Client.ThrottleWait | kis/client.py:109-116 | the sleep makes the send at least 250 ms after the last one; it is zero iff 250 ms have already passed |
| Client.ThrottleSpacing | kis/client.py:112-116 | the recorded send time is at least the previous one plus 250 ms, whatever the clock does |
| Client.BackoffSchedule | kis/client.py:136 | the backoff after failure k is 500, 1000, 2000 ms, doubling each time |
| Client.RetryFrom | kis/client.py:125-143 | at most three attempts; every attempt but the last was a 5xx; a non-5xx reply is returned unchanged, and three 5xx raise the last status |
| Client.RetryReturnsFirstNonServerError | kis/client.py:126-130 | the first reply below 500, a 4xx included, is returned after exactly that many attempts |
| Client.PersistentServerErrorExhaustsRetries | kis/client.py:131-143 | three 5xx replies: three requests, three sleeps, and the error of the last status |
| Client.RetryRecoversAfterOne503 | kis/client.py:126-141 | a 503 then a 200: two requests, one sleep, and the 200 returned |
| Client.Headers | kis/client.py:160-167 | exactly the six header names; bearer token, app credentials, the given tr_id and custtype "P" |
| Client.OrderBody | kis/client.py:287-294 | exactly the six body fields, holding the account, product code, stock code and order type given |
| Client.OrderAmountsRoundTrip | kis/client.py:292-293 | `ORD_QTY` and `ORD_UNPR` parse back to the quantity and price; the price is not checked against the order type |
| Client.Gate | kis/client.py:214-217 | a 2xx dict response passes iff `rt_cd` is "0"; otherwise the error carries `msg_cd` and `msg1` |
| Client.ParseDailyList | kis/client.py:260 | a successful parse has one record per item, each the parse of that item |
| Client.DailyKeepsLeadingRows | kis/client.py:259-260 | `get_daily_prices` returns the first min(count, rows) rows in the order the API sent them |
| Client.ParseListTotal | kis/client.py:260 | a list whose items all validate always parses |
| Client.OrderSkipsGate | kis/client.py:302-310 | an order response is returned whatever its `rt_cd`; absent envelope fields read as "" and `output` as None |
| Client.TotalBlock | kis/client.py:399-400 | a non-empty list is replaced by its first element; anything else is used as is |
| Client.ParseBalanceList | kis/client.py:397 | a successful parse has one holding per item, each the parse of that item |
| Client.TotalsShapesAgree | kis/client.py:399-405 | a one-element totals list and the bare totals object give the same balance and cash |
| Client.EmptyTotalsListFails | kis/client.py:399-446 | an empty totals list is not unwrapped, and reading a total from it fails for balance and for cash |
| Client.MissingTotalsReadZero | kis/client.py:402-406 | absent totals read as "0" in the balance |
| Client.MissingCashReadsZero | kis/client.py:444-446 | an absent deposit total reads as 0 cash |
| Client.AbsentSectionsGiveEmptyBalance | kis/client.py:399-406 | a successful envelope with neither `output1` nor `output2` gives `AccountBalance()` with its defaults: no holdings and totals of "0" |
| Client.GatedCallsFailOnNonZeroCode | kis/client.py:392-395 | price, daily, balance and cash all fail with the API's code and message exactly when `rt_cd` is not "0" |
| Client.KisClient.constructor | kis/client.py:50-60 | the credentials are stored; no token, no expiry, last send time 0 |
| Client.KisClient.GetToken | kis/client.py:66-99 | no request while the cached token is usable at either check; otherwise one token request, whose answer replaces the cache with expiry 60 s early; a failed answer leaves the cache; the result and new cache are `TokenOutcome` and `CacheAfter` |
| Client.KisClient.Throttle | kis/client.py:109-116 | sleeps `ThrottleWait` and records a send time at least 250 ms after the previous one |
| Client.KisClient.RequestWithRetry | kis/client.py:118-143 | returns the `Retry` result; one throttled send per attempt, sends 250 ms apart, the last send at least 250 ms per attempt after the previous call; one backoff sleep per 5xx of 500·2^k ms |
| Client.KisClient.GetHashkey | kis/client.py:169-188 | the hashkey request carries the app credentials and the body and goes through the retry path; the result is `HashkeyOf` the retried reply, so a 2xx reply holding `HASH` yields it unchecked and a non-2xx reply its status error |
| Client.KisClient.GetHeaders | kis/client.py:149-167 | succeeds iff a token is cached or the refresh succeeds; the headers carry `Bearer` and that token, otherwise the token error is returned unchanged; the cache afterwards is `CacheAfter` |
| Client.KisClient.GetPrice | kis/client.py:194-219 | the GET is sent iff a token is obtained, with the price path, params and the standard headers holding that token and the price tr_id; the result is the gated quote of the reply, the transport error or the token error; the cache is left as `GetToken` leaves it |
| Client.KisClient.GetDailyPrices | kis/client.py:221-260 | the GET is sent iff a token is obtained, with the daily path, params and the standard headers holding that token; its result is the first `count` rows of the gated reply, or the transport or token error |
| Client.KisClient.PlaceOrder | kis/client.py:266-310 | an unknown side fails before any request; the POST of `OrderBody` is sent iff the hashkey and then the token are obtained, with the standard headers holding that token and the side's tr_id plus the `hashkey` header holding the fetched hash; a hashkey or token failure is returned unchanged; a `HASH` that is not a string fails only after the token step and one more throttle, with nothing sent; the throttle clock advances by at least 250 ms per request made, and an unknown side leaves it and the token cache unchanged; the reply is read without the `rt_cd` gate |
| Client.KisClient.GetBalance | kis/client.py:363-406 | a mode without a balance tr_id fails with no request; otherwise the GET is sent iff a token is obtained, with the balance path, account params and headers holding that token; its result is the holdings and the unwrapped totals of the gated reply |
| Client.KisClient.GetAvailableCash | kis/client.py:408-446 | as `GetBalance` for the request and the token; the result reads `int(dnca_tot_amt)` from the unwrapped totals |
| WsClient.ParsePriceMessage | kis/ws_client.py:122-155 | a tick iff the frame has at least four pipe-separated parts, flag "0", tr_id H0STCNT0 and more than 13 '^' fields; the tick takes fields 0, 2, 3, 4, 5, 7, 8, 9, 13 |
| WsClient.OnlyPlainPriceFrames | kis/ws_client.py:137-139 | a frame whose flag is not "0", or whose tr_id is not the price id, never parses to a tick |
| WsClient.PriceFrameSplits | kis/ws_client.py:126-127 | a server frame splits into flag, tr_id, count and payload, and the payload into its fields |
| WsClient.PriceMessageRoundTrip | kis/ws_client.py:130-155 | a frame built from 14 or more fields parses to the tick of those fields |
| WsClient.ShortPayloadRejected | kis/ws_client.py:141-143 | a payload of 1 to 13 fields, too short to hold the volume field, gives no tick |
| WsClient.SubscribeMsgNamesCode | kis/ws_client.py:89-104 | the subscribe message names the code as `tr_key` |
| WsClient.SubscribeMsgs | kis/ws_client.py:110-113 | one subscribe message per code, in order |
| WsClient.PendingFresh | kis/ws_client.py:110-114 | each code `subscribe` sends is in the list and not yet subscribed, and none is sent twice |
| WsClient.PendingCovers | kis/ws_client.py:110-114 | after sending, every code of the list is subscribed and none is removed |
| WsClient.PendingEmptyOnceSubscribed | kis/ws_client.py:110-112 | a second `subscribe` with the same codes sends nothing |
| WsClient.SentCount | kis/ws_client.py:113-114 | the sends that went through form the prefix before the first failing send |
| WsClient.Ticks | kis/ws_client.py:190-200 | no more ticks than frames |
| WsClient.TicksConcat | kis/ws_client.py:190-200 | ticks are delivered frame by frame in arrival order |
| WsClient.KeyAfter | kis/ws_client.py:66-83 | a truthy cached approval key is reused as it is |
| WsClient.Connect | kis/ws_client.py:175-200 | a failed approval key raises with nothing streamed; a connection that returns closed cleanly and streamed the ticks of all its frames |
| WsClient.SessionCorrected | kis/ws_client.py:166-173 | after each connection attempt the socket is gone and the subscriptions are empty |
| WsClient.CleanCloseLosesSubscriptions | kis/ws_client.py:166-187 | as written, a reconnection after a clean close sends no subscribe message for a code already subscribed |
| WsClient.ReconnectResubscribes | kis/ws_client.py:169-173 | with the reset, the next connection sends one subscribe message for every pending code and ends with all of them subscribed |
| WsClient.KisWebSocket.constructor | kis/ws_client.py:51-60 | no approval key, no socket, no subscriptions |
| WsClient.KisWebSocket.GetApprovalKey | kis/ws_client.py:66-83 | a request is made iff no truthy key is cached; the key is stored on success |
| WsClient.KisWebSocket.Subscribe | kis/ws_client.py:106-116 | does nothing without a socket; otherwise sends one message per pending code in order and records each one right after its send, stopping at the first failed send |
| WsClient.KisWebSocket.StreamFrames | kis/ws_client.py:190-200 | the ticks are exactly those of the frames that parse, in order |
| WsClient.KisWebSocket.ConnectAndStream | kis/ws_client.py:175-200 | the new state and ticks are those of `Connect` |
| WsClient.KisWebSocket.Attempt | kis/ws_client.py:167-173 | one pass of the loop: connect and stream, then the socket and the subscriptions are dropped, as `SessionCorrected` |
| WsClient.KisWebSocket.Run | kis/ws_client.py:161-173 | the finite run of connections with the reset after each, as `RunCorrected` |
| WsClient.KisWebSocket.Close | kis/ws_client.py:202-207 | the socket is detached; subscriptions and key are kept |
| MarketSchedule.PhaseAt | agents/market_schedule.py:37-43 | pre-scan iff pre ≤ t < open; open iff open ≤ t < close; closed otherwise |
| MarketSchedule.PhasesPartition | agents/market_schedule.py:39-43 | with ordered bounds the active phases cover exactly [pre, close); `close` itself and times before `pre` are closed |
| MarketSchedule.ScheduleBoundsOrdered | agents/market_schedule.py:27-34 | 08:30 < 09:00 < 15:30 and 09:00 < 09:30 < 16:00; 30 min of pre-scan, 6 h 30 of trading |
| MarketSchedule.KrWindows | agents/market_schedule.py:46-55 | KR pre-scan 08:30–09:00 and open 09:00–15:30 on weekdays only |
| MarketSchedule.UsWindows | agents/market_schedule.py:58-67 | US pre-scan 09:00–09:30 and open 09:30–16:00 on weekdays only |
| MarketSchedule.IsAnyMarketActive | agents/market_schedule.py:70-74 | active iff either market is on a weekday within its [pre-scan, close) window |
| MarketSchedule.GetMarketStatus | agents/market_schedule.py:77-102 | `any_active` is the same instant's `is_any_market_active`, true iff one of the reported phases is not "closed" |
| MarketSchedule.WeekendInactive | agents/market_schedule.py:53-66 | a weekend in both zones closes both markets at every time of day |
| Clock.Pad | agents/report.py:48 | a zero-padded field has the given width, only digits, and reads back as the number |
| Clock.Stamp | agents/report.py:48 | a time stamp is 19 characters |
| Clock.ClockReading | agents/market_schedule.py:91 | `%H:%M:%S` is 8 characters with ':' at positions 2 and 5 |
| Clock.StampOrder | agents/report.py:48 | stamps compare as strings exactly as the times compare chronologically |
| Clock.TimeOfDayOrder | agents/report.py:48 | the `%H-%M-%S` tails compare as strings exactly as the times of day compare |
| Clock.PadOrder | agents/report.py:48 | fixed-width numbers compare as strings as they compare as numbers |
| AppConfig.Account | config.py:57 | the account is the first min(8, len) characters of the raw value |
| AppConfig.SelectMode | config.py:51-70 | "paper" and "live" (case-insensitively) select their own keys, account and URLs; anything else is the `ValueError` |
| AppConfig.ModeIgnoresCase | config.py:51 | spellings that lower-case alike select the same settings |
| AppConfig.UpperCaseModeSelects | config.py:51-60 | "PAPER" selects the paper settings |
| AppConfig.Checks | config.py:77-109 | the eleven checks of `validate`, in order |
| AppConfig.Failing | config.py:111 | the messages of the failing checks, in order, no more than the checks |
| AppConfig.FailingMembers | config.py:77-112 | a message is reported iff some check with that message fails |
| AppConfig.FailingEmpty | config.py:111-112 | no error is reported iff no check fails |
| AppConfig.ValidAccepts | config.py:72-112 | validation passes iff the mode is "paper" or "live", all credentials and OpenAI settings are non-empty, the watchlist is non-empty and the four intervals are positive |
| AppConfig.IntervalsReported | config.py:98-109 | an empty watchlist and each non-positive interval are reported with their own message |
| AppConfig.ValidationIsCaseSensitive | config.py:80-81 | "PAPER" passes construction but fails validation |
| AppConfig.Config.constructor | config.py:19-47 | the given fields are stored and the derived ones are blank |
| AppConfig.Config.PostInit | config.py:49-70 | fills the derived fields from `SelectMode`, or reports its `ValueError` and changes nothing |
| AppConfig.Config.CredentialErrors | config.py:79-95 | the failing messages of the first six checks |
| AppConfig.Config.LimitErrors | config.py:97-109 | appends the failing messages of the last five checks |
| AppConfig.Config.Validate | config.py:72-112 | fails iff some check fails, with one message listing every failure |
| AppConfig.LoadWatchlistFile | config.py:115-124 | the file's list when it decodes to a list of strings, else nothing |
| AppConfig.ParseCodes | config.py:142 | the stripped non-empty entries of the comma split |
| AppConfig.StrippedNonEmpty | config.py:142 | every kept entry is stripped and non-empty |
| AppConfig.ParseCodesOfJoin | config.py:142 | clean codes joined by commas parse back to the same list, in order |
| AppConfig.BlankEntriesDropped | config.py:142 | a variable of commas and blanks yields no codes |
| AppConfig.ParseWatchlist | config.py:132-149 | the file's list if valid (no write); else the non-empty variable's codes, else the five defaults, and that list is saved |
| AppConfig.SavedListIsReloaded | config.py:127-137 | the saved list is what the next load returns, whatever the environment says |
| AppConfig.Load | config.py:19-47 | `Config()` reads every variable or its default (mode, API key, the four intervals, port, log level) and the watchlist, then runs `PostInit`; an integer variable that does not parse is the `int()` error, an unknown mode the `ValueError` |
| BaseAgent.Next | agents/base.py:55-97 | one pass of `run` keeps the agent state sound |
| BaseAgent.Written | agents/base.py:75 | the written report is in the agent's directory, which exists afterwards; other directories are unchanged and names stay unique |
| BaseAgent.NextProduced | agents/base.py:68-87 | an active pass whose cycle returns announces `running`, then the idle status and the report, and records the report |
| BaseAgent.NextRaised | agents/base.py:68-95 | an active pass whose cycle raises announces `running`, then the error status, and writes nothing |
| BaseAgent.ClosedPassRests | agents/base.py:57-66 | with every market closed: no cycle; status idle; one broadcast only if it was not idle |
| BaseAgent.ProducedPassReports | agents/base.py:68-87 | a cycle that returns writes one report, sets `last_run`, ends idle and keeps `last_error` |
| BaseAgent.RaisedPassRecords | agents/base.py:88-95 | a cycle that raises ends in error with its message, and leaves the reports and `last_run` alone |
| BaseAgent.Passes | agents/base.py:55-97 | any sequence of passes keeps the state sound |
| BaseAgent.ErrorsAndRunsPersist | agents/base.py:76-90 | `last_error` is the latest raised message and `last_run` the latest finishing time: a later success does not clear the error |
| BaseAgent.StatusFollowsLastPass | agents/base.py:55-97 | the status after a run says how its last pass ended |
| BaseAgent.Agent.constructor | agents/base.py:21-35 | idle, never run, no error, nothing broadcast |
| BaseAgent.Agent.GetStatus | agents/base.py:112-124 | name, status, `last_run` present iff set, and `last_error` |
| BaseAgent.Agent.Broadcast | agents/base.py:69-72 | the event is sent only when a broadcaster is attached, and nothing else changes |
| BaseAgent.Agent.Step | agents/base.py:55-97 | one loop iteration moves the state as `Next` |
| BaseAgent.Agent.Rest | agents/base.py:57-66 | back to idle, announced only on a change |
| BaseAgent.Agent.Finish | agents/base.py:73-95 | the end of an active cycle, as `Next` |
| BaseAgent.Agent.Record | agents/base.py:77-87 | sets `last_run`, goes idle, then announces the new status and the report path in that order, only with a broadcaster |
| BaseAgent.Agent.Succeed | agents/base.py:74-87 | writes the report, sets `last_run`, goes idle and announces the status and the new report |
| BaseAgent.Agent.Fail | agents/base.py:88-95 | goes to error with the message, keeping `last_run` |
| BaseAgent.Agent.Run | agents/base.py:47-97 | a finite run of the loop ends in `Passes` of its passes |
| AgentContext.Kept | agents/trade_executor.py:21-24 | the filter keeps no more than its input |
| AgentContext.KeptMembers | agents/risk_manager.py:25 | a holding is kept iff it is one of the holdings and passes the filter |
| AgentContext.KeptAppend | agents/risk_manager.py:25 | filtering keeps the holdings' order |
| AgentContext.NothingKept | agents/trade_executor.py:31-32 | nothing is kept iff no holding passes the filter |
| AgentContext.Lines | agents/trade_executor.py:25-29 | one line per holding |
| AgentContext.LineAt | agents/trade_executor.py:25-29 | line i is the rendering of holding i |
| AgentContext.ReportsInBlock | agents/risk_manager.py:54-57 | an empty list gives the placeholder; otherwise every report occurs in the block, in order |
| AgentContext.JoinedSections | agents/risk_manager.py:48-77 | the newline join of heading/body parts is the join of the sections, which occur in order |
| TradeExecutor.Positions | agents/trade_executor.py:15-36 | defined iff every quantity converts with `int` |
| TradeExecutor.FormatPositions | agents/trade_executor.py:15-36 | the loop-and-insert rendering equals `Positions` |
| TradeExecutor.CollectLines | agents/trade_executor.py:20-29 | the loop's lines are one per holding with a quantity other than zero, in order; it fails iff a quantity does not convert |
| TradeExecutor.NoPositionsExactly | agents/trade_executor.py:17-32 | the placeholder is the answer iff every quantity converts and is zero |
| TradeExecutor.HeldLineShown | agents/trade_executor.py:23-36 | every holding with a non-zero quantity, negative ones included, has its line in the summary |
| TradeExecutor.ExecuteSingleOrder | agents/trade_executor.py:119-146 | dispatches on the lower-cased action. Buy or sell calls the broker; anything else is skipped with no call. A raised call becomes "failed" with its text; any response is "success" and is broadcast when a manager exists |
| TradeExecutor.MissingFieldsDefault | agents/trade_executor.py:121-125 | missing fields default to code "", qty 0, price 0 and order type "01" |
| TradeExecutor.ActionCase | agents/trade_executor.py:122-133 | "Buy" places a buy; " buy" is skipped as an unknown action |
| TradeExecutor.RejectedResponseCountsAsSuccess | agents/trade_executor.py:135-142 | a response with `rt_cd` other than "0" is still "success" and broadcast as "filled" |
| TradeExecutor.ExecutionParts | agents/trade_executor.py:162-183 | the context is eight parts |
| TradeExecutor.BuildExecutionContext | agents/trade_executor.py:154-185 | the appended parts joined by newlines are `ExecutionContext` |
| TradeExecutor.ExecutionSections | agents/trade_executor.py:164-185 | signals, positions with cash, risk constraints, trade history, in this order; each is its reports or its placeholder |
| RiskManager.RiskPositions | agents/risk_manager.py:15-36 | defined iff every quantity converts |
| RiskManager.FormatPositionsForRisk | agents/risk_manager.py:15-36 | the appended lines equal `RiskPositions` |
| RiskManager.PlaceholderExactly | agents/risk_manager.py:25-27 | the holdings part is the placeholder alone iff no holding has a positive quantity |
| RiskManager.ActiveExactly | agents/risk_manager.py:25 | a holding is listed iff it is one of the account's holdings and its quantity is positive |
| RiskManager.RiskSummaryShape | agents/risk_manager.py:17-34 | five header lines (totals, comma-grouped cash, blank, "### Holdings"), then one line per positive holding in order, or the placeholder iff none is positive |
| RiskManager.RiskParts | agents/risk_manager.py:48-75 | the context is ten parts |
| RiskManager.RiskContext | agents/risk_manager.py:39-77 | defined iff every quantity converts |
| RiskManager.BuildRiskContext | agents/risk_manager.py:39-77 | the appended parts equal `RiskContext` |
| RiskManager.JoinRiskParts | agents/risk_manager.py:50-77 | the appends after the portfolio summary, joined by newlines |
| RiskManager.RiskSections | agents/risk_manager.py:50-75 | portfolio, market data, analyst signals, recent trades, previous assessments, in this order; each is its reports or its placeholder |
| RiskManager.Assess | agents/risk_manager.py:133-151 | the alert is broadcast iff the warnings are truthy and a manager exists, carrying level and warnings; it fails iff `len(warnings)` raises |
| RiskManager.SummaryCountsWarnings | agents/risk_manager.py:133-154 | for any list of warnings the summary names the risk level and ends with a count that reads back as the list's length; the alert goes out iff the list is non-empty and a manager exists |
| RiskManager.NoWarningsNoAlert | agents/risk_manager.py:147-151 | missing or empty warnings raise no alert |
| RiskManager.NoManagerNoAlert | agents/risk_manager.py:147 | without a manager nothing is broadcast |
| DataCollector.FormatPriceKeepsSevenFields | agents/data_collector.py:14-24 | the view keeps the seven quote fields, from which the quote is rebuilt; sign and limit prices are dropped |
| DataCollector.FormatDaily | agents/data_collector.py:27-40 | one view per day, in order |
| DataCollector.FormatDailyLossless | agents/data_collector.py:27-40 | every day is recovered from its view |
| DataCollector.Put | agents/data_collector.py:70-73 | `market_data[code] = ...` adds a code once: the codes afterwards are the old ones plus `code`, and they stay distinct |
| DataCollector.PutPositions | agents/data_collector.py:70-73 | a new code is appended last; every pair with another code keeps its position and value |
| DataCollector.PutEntries | agents/data_collector.py:70-73 | after the assignment the code maps to the stored entry and every other code to what it mapped to before |
| DataCollector.Collected | agents/data_collector.py:65-75 | no more entries than watchlist codes, and the codes are distinct |
| DataCollector.CollectedEntry | agents/data_collector.py:66-75 | a code whose last successful fetch is at position i maps to the formatted quote and formatted history of that fetch |
| DataCollector.Collect | agents/data_collector.py:65-75 | the loop builds `Collected` and issues `Requests` |
| DataCollector.CollectedCodes | agents/data_collector.py:66-75 | a code is collected iff some watchlist position holds it and both its fetches succeeded |
| DataCollector.HistoryRequestsFiveDays | agents/data_collector.py:69 | every history request asks for five days |
| DataCollector.DayLines | agents/data_collector.py:115-119 | one line per day |
| DataCollector.BuildContext | agents/data_collector.py:100-126 | the appended parts joined by newlines are `ContextParts` |
| DataCollector.AppendEntry | agents/data_collector.py:106-120 | one code's block, history lines and blank line |
| DataCollector.EntryShape | agents/data_collector.py:107-120 | a block starts with "### Stock code"; "Recent daily history:" appears iff the history is non-empty |
| DataCollector.EntriesNoNotes | agents/data_collector.py:105-120 | the stock blocks never contain the notes heading |
| DataCollector.DayLinesIndent | agents/data_collector.py:116-118 | every history line is indented |
| DataCollector.NotesOnlyWithReports | agents/data_collector.py:122-124 | "## Risk Manager Notes" appears iff there are risk reports |
| DataAnalyst.AnalysisParts | agents/data_analyst.py:84-96 | the context is four parts |
| DataAnalyst.BuildAnalysisContext | agents/data_analyst.py:79-98 | the appended parts equal `AnalysisContext` |
| DataAnalyst.AnalysisSections | agents/data_analyst.py:86-96 | market data, then risk constraints; each is its reports or its placeholder |
| DataAnalyst.NoCollectorReports | agents/data_analyst.py:87-90 | with no collector reports the text starts with the heading and the placeholder |
| DataAnalyst.Extract | agents/data_analyst.py:55-66 | fails iff `signals` is present and has no length (None, a boolean or a number); each of signals, outlook and reasoning is the present value unchanged or, when absent, [], "N/A" and "" |
| DataAnalyst.SummaryCountsSignals | agents/data_analyst.py:55-66 | for any list of signals, or none, the summary opens with a count that reads back as the list's length and ends with the outlook |
| DataAnalyst.EmptyAnalysisDefaults | agents/data_analyst.py:55-57 | an empty analysis reads as no signals, outlook "N/A" and no reasoning |
| Reports.Markdown | agents/report.py:80 | only markdown files of the directory, no more than it holds |
| Reports.Put | agents/report.py:62 | writing replaces the file of that name or adds it; names stay unique |
| Reports.Field | agents/report.py:56-60 | a missing key renders as "N/A", a string as itself |
| Reports.Sections | agents/report.py:56-60 | five sections |
| Reports.ReportName | agents/report.py:48-49 | `%Y-%m-%d_%H-%M-%S.md`: 22 characters, markdown |
| Reports.NameOrder | agents/report.py:48-49 | a later second gives a later name |
| Reports.Newest | agents/report.py:80 | the listing holds exactly the markdown files, each once |
| Reports.ReadFrom | agents/report.py:80-81 | at most `n` contents, no more than the markdown files |
| Reports.LatestReadFirst | agents/report.py:80-81 | a report named after every other is the first read back |
| Reports.MarkdownOfPutLatest | agents/report.py:49-62 | a new latest report is added at the end and is a markdown file |
| Reports.SameSecondReplaces | agents/report.py:48-62 | writing within an existing report's second replaces it: the listing does not grow |
| Reports.ReportManager.constructor | agents/report.py:14-24 | existing directories are kept and the four known ones exist afterwards |
| Reports.ReportManager.EnsureDirs | agents/report.py:26-35 | creates each known agent's directory unless it exists, and touches nothing else |
| Reports.ReportManager.WriteReport | agents/report.py:37-63 | the path is reports/agent/stamp.md and the agent's directory gains that file with the rendered content |
| Reports.Content | agents/report.py:55-60 | the title line, then Summary, Data, LLM Decision, Actions Taken and Recommendations, separated by blank lines |
| Reports.ListingIsNewestFirst | agents/report.py:83-97 | the listing is sorted newest first and holds every markdown name; a missing directory gives [] for listing and reading |
| Reports.ReadFollowsListing | agents/report.py:65-81 | reading returns the contents of the first `n` files of the listing |
| Reports.WriteThenReadNewest | agents/report.py:37-81 | a report written after every other is the first read back |
| Routes.AddOutcome | server/routes.py:45-51 | ok iff the stripped code is six digits and absent; the result is the list plus the code; 400 or 409 otherwise |
| Routes.RemoveOutcome | server/routes.py:69-72 | ok iff the code is present; one copy removed; 404 otherwise |
| Routes.GetWatchlist | server/routes.py:31-36 | 503 iff there is no configuration |
| Routes.AddToWatchlist | server/routes.py:39-60 | 503 without configuration; otherwise `AddOutcome`, the configuration's list updated in place, saved, and the code subscribed only when a socket client exists |
| Routes.RemoveFromWatchlist | server/routes.py:63-77 | 503 without configuration; otherwise `RemoveOutcome` applied in place and saved |
| Routes.AddThenRemove | server/routes.py:39-72 | adding then removing a code restores the list; adding it twice is a 409 |
| Routes.EditsKeepDistinct | server/routes.py:48-72 | adds and removes keep a list free of repeats |
| Routes.AddStripsPadding | server/routes.py:45 | " code " is added as "code" |
| Routes.StemTimestamp | server/routes.py:145-152 | a timestamp iff the stem has exactly two '_' parts: date + "T" + time with '-' turned to ':' |
| Routes.ReportNameTimestamp | server/routes.py:145-150 | the stem of a report name gives back that report's ISO time |
| Routes.TimeSeparators | server/routes.py:149 | replacing '-' in the time part gives the ':' time |
| Routes.OtherStemsSkipped | server/routes.py:147-152 | stems with one or three parts are skipped |
| Routes.StatusOf | server/routes.py:170-182 | "success" maps to "filled", every other hashable value to "failed"; a list or dict raises |
| Routes.TradeOf | server/routes.py:166-183 | a trade iff the item and its order are dicts; stamped with the file's time; the name repeats the code; status "filled" iff the result is "success" |
| Routes.EmptyRecordDefaults | server/routes.py:167-182 | `{}` reads as code "", action "buy", qty 0, price 0, status "failed" |
| Routes.TradesOfItems | server/routes.py:166-184 | one trade per item, in order, or the first item's failure |
| Routes.TradesOfData | server/routes.py:164-184 | a list is read item by item; all trades carry the file's time and a known status |
| Routes.ReadTrades | server/routes.py:166-184 | the item loop yields `TradesOfData` |
| Routes.TradesOfItemsFail | server/routes.py:166-184 | the first failing item decides the error |
| Routes.NewestAllMarkdown | server/routes.py:141 | the scanned files are all markdown |
| Routes.GetTrades | server/routes.py:126-194 | the scan with its skips, early stop, sort and limit yields `Trades` |
| Routes.ScanOne | server/routes.py:144-187 | one file's outcome is `ScanFile`: skipped, raised or its trades |
| Routes.ScanTrades | server/routes.py:143-191 | every trade found comes from a scanned file's time with a known status |
| Routes.TakeSorted | server/routes.py:193-194 | sort then slice: newest first, at most `limit`, drawn from the input, and everything when the limit allows |
| Routes.TradesNewestFirst | server/routes.py:126-194 | trades are newest first, at most `limit`, each stamped from a markdown report; a missing directory gives [] |
| Routes.FilesOf | server/routes.py:101-106 | one record per markdown file |
| Routes.GetAllReports | server/routes.py:90-109 | the loops gather `AllReports` |
| Routes.AgentFiles | server/routes.py:101-106 | the inner loop yields `FilesOf` |
| Routes.GatheredFrom | server/routes.py:97-106 | each gathered record is a markdown file of an existing known agent's directory |
| Routes.AllReportsNewestFirst | server/routes.py:107-109 | newest first by file name, at most `limit`, all from known agents, and complete when the limit allows |
| Routes.AgentReports | server/routes.py:111-115 | one record per listed name up to `limit` |
| Routes.AgentReportsNewestFirst | server/routes.py:111-115 | newest first, at most `limit`, each the agent's own listed file |
| WsManager.Message | server/ws.py:23 | the message is `{"type": event_type, "data": data}` |
| WsManager.FailedAndSurvivors | server/ws.py:25-29 | every connection either failed or survived |
| WsManager.RemoveEach | server/ws.py:30-31 | removing the failed sockets one by one removes exactly them as a multiset |
| WsManager.WebSocketManager.constructor | server/ws.py:9-10 | no connections |
| WsManager.WebSocketManager.Connect | server/ws.py:12-15 | the socket goes last |
| WsManager.WebSocketManager.Disconnect | server/ws.py:17-19 | removes the first occurrence iff present; raises otherwise and changes nothing |
| WsManager.WebSocketManager.Broadcast | server/ws.py:21-31 | one identical message to every connection in order; afterwards the failed ones are removed |
| WsManager.WebSocketManager.RemoveAll | server/ws.py:30-31 | the second loop applies `RemoveEach` |
| WsManager.SendAll | server/ws.py:24-29 | every connection is attempted and the failed ones are collected in order |
| WsManager.BroadcastKeepsSurvivors | server/ws.py:21-31 | after a broadcast the connections are those whose send succeeded, as a multiset always |
| WsManager.SurvivorsInOrder | server/ws.py:24-31 | without repeated sockets they are exactly the survivors, in their original order |
| Lists.RemoveFirst | server/ws.py:18 | `remove` drops the first copy: the elements before it and after it keep their order |
| Lists.RemoveFirstCount | server/ws.py:18 | `remove` drops exactly one copy and nothing else |
| Lists.RemoveFromDistinct | server/routes.py:72 | removing from a repeat-free list drops the element entirely and keeps all others |
| Text.Strip | server/routes.py:45 | the result is no longer than the input and neither starts nor ends with white space |
| Text.PyTake | server/routes.py:109 | `s[:n]` is a prefix of min(n, len) elements; a negative `n` counts from the end |
| Text.GroupDigitsUngroups | agents/risk_manager.py:20 | dropping the grouping commas of `{:,}` gives the digits back |
| Text.ParseIntOfIntToString | agents/trade_executor.py:23 | `int(str(i)) == i` |
| Text.JoinThenSplit | server/routes.py:146 | splitting a join gives the pieces back when none holds the separator |
| Sorting.SortDescBySorted | agents/report.py:97 | `sorted(..., reverse=True)` is descending |
| Sorting.SortDesc | agents/report.py:97 | the sort is a permutation |
| Sorting.InsertWithKey | server/routes.py:193 | inserting into a sorted list places the new element after every element with the same key |
| Sorting.SortDescByStable | server/routes.py:193 | `sort(key=..., reverse=True)` is stable: the elements with any one key keep their relative order |

## Left out

- Network, filesystem and clocks are inputs: HTTP replies, socket send results, the frames received, clock readings, directory contents and the environment. Nothing models asyncio locks, concurrent coroutines or real sleeps. The single-flight token refresh is modelled as the sequential check, lock, re-check and refresh.
- Time is integer milliseconds (throttle, backoff) or whole seconds (schedule, reports); floats are not modelled. The reconnect delay of 5 s and the 0.1 s pause between subscriptions are left out.
- JSON encoding and decoding (`json.dumps` of results, `resp.json()`) are not modelled. Values arrive as a JSON datatype. In the trade scan, the regular expression that finds the `## Data` section and the `json.loads` of that section are one input function (`parse`). Its outcome is either no section, an undecodable one (the caught `JSONDecodeError`), or a value.
- `str()` of containers and of response objects is a fixed marker (`JsonValue.Display`). `TradeExecutor.ExecuteSingleOrder` keeps the response record itself rather than its text.
- Pydantic machinery: `extra = "allow"` fields are ignored, and only the type checks the records need are modelled.
- Python's `strip`, `lower` and `\d` are ASCII-only here. The source's `\d` and `str.isspace` also accept other Unicode digits and spaces.
- `JsonValue.Json`: JSON numbers are integers only. A float cannot be represented: an LLM `"qty": 10.0` that `int()` truncates, or a float `signals` whose `len` raises. This reaches `JsonValue.PyInt`, `TradeExecutor.ExecuteSingleOrder`, `DataAnalyst.Extract`, `RiskManager.Assess` and `Routes.TradeOf`.
- `Text.ParseInt`: Python's `int()` also accepts underscores between digits (`int("1_000")`) and non-ASCII Unicode digits; the model accepts only ASCII digits with an optional sign and surrounding white space, so those inputs fail. This reaches `JsonValue.PyInt`, the quantities of `TradeExecutor` and `RiskManager`, `TradeExecutor.ExecuteSingleOrder` and `AppConfig.Load`.
- `Clock`: years outside 1000..9999 and microseconds are not modelled; `isoformat` is taken without a fractional second.
- Time-zone conversion is left out. `MarketSchedule` takes the KST and ET weekday and second of day as inputs.
- The LLM calls and their prompts, and logging, are left out everywhere. The rest of each `run_cycle` is also left out: the `orders` loop and summary of the trade executor, the JSON `data` fields, and the `read_other_reports` calls. What these calls return is an input to the context builders.
- `BaseAgent.Agent.Run`: models a finite prefix of the `while True` loop. Whether a market is active and how `run_cycle` ends are given per pass.
- `WsClient.KisWebSocket.Run`: models a finite sequence of connection attempts, with the reset applied whatever the outcome (see Findings). Binary frames decoded as UTF-8 and the price callback's own errors are left out. The callback is the list of ticks.
- `TradeExecutor.ExecuteSingleOrder`: an `int()` failure on `qty` or `price` happens before the `try`, so it propagates. It is modelled as an `Err`, not as a "failed" result.
- `Routes.AddToWatchlist` and `Routes.RemoveFromWatchlist`: the file write and the subscription task are returned as outputs and not performed.
- `Routes.GetTrades`: `Path.stem` is modelled for names that end in `.md`. Directories are flat sequences of file entries. `ReportManager("trade_executor")` creating directories is modelled by taking the directories from a `Reports.ReportManager`.
- The other HTTP routes are not part of this model: agents, report content, balance, prices, configuration and market status.
- `WsManager.WebSocketManager.Connect`: `websocket.accept()` is assumed to succeed.
- `Client`: closing the httpx client and the `buy`/`sell` wrappers are left out. `PlaceOrder` takes the side directly. The `order_modify` and `available_cash` paths exist only in the table.
- `AppConfig.Load`: an integer variable (an interval or the port) that `int()` cannot parse is modelled as `Err("invalid literal for int()")`; the message text of the `ValueError` is not reproduced.

## Findings

| source | as written | input that shows it | evidently intended | confidence | as-written member | corrected member |
|---|---|---|---|---|---|---|
| kis/ws_client.py:166-173 | the reset of `_ws` and `_subscribed` runs only when `_connect_and_stream` raises; a clean server close returns normally, and the loop reconnects with `_subscribed` still full, so `subscribe` sends nothing and no ticks arrive for those codes | subscribe to "005930", then the server closes the socket normally; the next connection sends no subscribe message | every new connection starts with no subscriptions and subscribes every watched code | not executed | WsClient.CleanCloseLosesSubscriptions | WsClient.ReconnectResubscribes |
