# A verified model of an LLM-driven trading bot's core

The system trades Korean (KOSPI) and US stocks through the Korea Investment
& Securities (KIS) brokerage API. A language model proposes buys and sells,
a Discord bot asks for approval and reports results, and scheduled
routines place orders at market open. This project models its
deterministic core in Dafny and proves properties of that model:

- **Brokerage client** (`kis_client.dfy`). Covers the access-token
  lifecycle over a clock value, the paper-trading rewrite of transaction
  ids, the `rt_cd` reply check, the cash-order bodies and the process-wide
  client. It is a class whose token and token file change in place.
- **Global mode** (`state.dfy`). The `GlobalState` singleton and its
  "real"/"paper" switch.
- **Model reply handling** (`llm_analyzer.dfy`). Turns the model's decoded
  JSON answer into buy/sell decisions, including the confidence-tiered buy
  amount, and builds the daily recommendations.
- **Momentum scalping** (`momentum.dfy`). The rising-stock scan and its
  gates, the approved buy, and the end-of-day liquidation. The position
  list and its state file are the fields of a class.
- **Daily job** (`daily_job.dfy`). Sell first, then at most three buys,
  each notified once, then a closing report, all under a halt flag.
- **Routines** (`routines.dfy`). The morning (KR) and evening (US)
  planning of orders, their scheduling, and the scheduled execution.
- **Stock search** (`stock_search.dfy`). The lookup cascade over the
  popular-stock table.
- **Screener** (`stock_screener.dfy`). Watchlist filtering, quotes, ranking
  by change rate, screening, and watchlist edits.
- **Favorites** (`favorites.dfy`). The per-user favorites map and its file.
- **News** (`news_fetcher.dfy`). Collection from RSS feeds,
  de-duplication by title, and newest-first ordering.

Shared pieces:

- `base.dfy`: Option/Result, Python's truncating division and slicing,
  and a filter.
- `decimal.dfy`: `str(int)` and its inverse, and the `,` format option
  (thousands separators).
- `text.dfy`: ASCII character classes, `upper`, `strip`, substring search
  and lexicographic order.
- `clock.dfy`: calendar dates and their `strftime`/`isoformat` text.
- `broker.dfy`: the shapes of brokerage replies and the
  `output2[0].dnca_tot_amt` cash read.

Every collaborator is a parameter, and so is every answer it would give:
the brokerage's replies (one value, or a function from the call's index to
its outcome), the model's decoded reply, RSS feeds (a function from URL to
entries), the KRX ticker list, the KRX name search, the clock readings
(the clock value, or a function from the reading's index to its value),
and files (the state of the file before and after). Chat notifications
become returned values. Rates the source keeps as floats are integers in
hundredths of a percent, so 5.0% is 500.

One behaviour is modelled as written. `search_stock("")` returns 삼성전자:
the empty string is a substring of every key, so the partial-match step
picks the first table entry (`StockSearch.SearchEmptyQuery`).

The buy-amount tiers follow the code, not its comments. The comments at
`src/analysis/llm_analyzer.py:145` and `:150` say 200 to 400만원 and 10 to
50만원. Under the configured limits the code gives 2,000,000 and 3,000,000
won for confidence 7 and 8, and 400,000 and 700,000 won for 3 and 4
(`LlmAnalyzer.ConfiguredAmounts`).

## Model

| member | source | states |
|---|---|---|
| Base.TruncDiv | src/trading/momentum.py:132 | `int(a / b)` rounds toward zero: the result's magnitude is `|a| / |b|` with the sign of `a * b`, and it agrees with floor division when both operands are non-negative |
| Base.SliceTo | src/scheduler/daily_job.py:70 | `s[:n]` is a prefix of `s` of length `min(n, |s|)`, and for negative `n` drops the last `-n` elements as Python does |
| Decimal.IntToString | src/trading/kis_client.py:222-223 | `str(n)` is non-empty and starts with `-` exactly for negative numbers |
| Decimal.IntRoundTrip | src/trading/kis_client.py:222-223 | parsing `str(n)` gives back `n` for every integer |
| Decimal.IntToStringInjective | src/utils/favorites.py:54 | different user ids give different `str(user_id)` keys |
| Decimal.GroupDigits | src/trading/momentum.py:166 | the `,` option leaves up to three digits alone and keeps the leading digit first; on a comma-free string of n > 0 digits it adds (n - 1) / 3 commas, standing exactly at every fourth place counted from the end |
| Decimal.IntGrouped | src/trading/momentum.py:166 | `f"{n:,}"` is non-empty and starts with `-` exactly for negative numbers; after the sign come the d digits of the magnitude with (d - 1) / 3 commas, one exactly at every fourth place counted from the end and none first |
| Decimal.GroupedIsDecimal | src/trading/momentum.py:166 | `f"{n:,}"` with its commas removed is `str(n)` |
| Decimal.GroupedRoundTrip | src/trading/momentum.py:166 | `f"{n:,}"` with its commas removed parses back to `n` |
| Text.Upper | src/data/stock_search.py:158 | `upper()` keeps the length and maps each character through the ASCII upper-case map |
| Text.Strip | src/data/stock_search.py:158 | `strip()` is a contiguous slice with no leading or trailing whitespace, and every removed character is whitespace |
| Text.Contains | src/data/stock_search.py:179 | `q in name` holds iff `q` occurs at some offset of `name` |
| Text.LexLeTotal | src/data/news_fetcher.py:58-62 | the string order used to sort by `published` is total |
| Text.LexLeTransitive | src/data/news_fetcher.py:58-62 | that order is transitive |
| Text.LexLeAntisymmetric | src/data/news_fetcher.py:58-62 | that order is antisymmetric |
| Clock.Pad | src/trading/momentum.py:50 | a zero-padded field has exactly the requested width and only digits |
| Clock.DateString | src/trading/momentum.py:30 | `strftime("%Y-%m-%d")` is ten characters long |
| Clock.Timestamp | src/trading/momentum.py:50 | `strftime("%Y-%m-%d %H:%M:%S")` is nineteen characters long and starts with the `%Y-%m-%d` text of its date |
| Clock.IsoString | src/data/news_fetcher.py:86 | `isoformat()` of a whole-second time is the `%Y-%m-%d %H:%M:%S` text with `T` in place of the space |
| Clock.PadValue | src/trading/momentum.py:30-34 | a padded field reads back as its number |
| Clock.PadInjective | src/trading/momentum.py:30-34 | different numbers of the same width give different padded text |
| Clock.DateStringInjective | src/trading/momentum.py:30-34 | different valid dates give different `%Y-%m-%d` text |
| Clock.TimestampOnDate | src/trading/momentum.py:30-34 | a saved time stamp starts with a valid date's text iff it was taken on that date |
| Broker.FirstSummary | src/scheduler/daily_job.py:174 | `output2[0]`: raises exactly when `output2` is present and empty; a present non-empty `output2` yields its first summary, and a missing one the empty default `{}` |
| Broker.CashOf | src/scheduler/routines.py:36-37 | the cash is `dnca_tot_amt`, or 0 when absent, and the read raises exactly where `output2[0]` raises |
| Broker.CashFrom | src/scheduler/routines.py:34-37 | a failed balance lookup or a failed cash read is an error; otherwise it gives the reply's cash |
| State.NextMode | src/utils/state.py:12-14 | `set_mode` accepts exactly "real" and "paper" and ignores any other value |
| State.ModeAfterNoneAccepted | src/utils/state.py:12-17 | after a series of `set_mode` calls none of which names a mode, the mode is the starting one |
| State.ModeAfterIsLastAccepted | src/utils/state.py:12-17 | after any series of `set_mode` calls the mode is the last request that named a mode |
| State.GlobalState.constructor | src/utils/state.py:7-9 | a new instance starts in "paper" mode |
| State.GlobalState.SetMode | src/utils/state.py:12-14 | the mode becomes `NextMode` of the old mode and the request, and it stays a valid mode |
| State.GlobalState.GetMode | src/utils/state.py:16-17 | returns the current mode, which is always "real" or "paper" |
| State.GlobalStateClass.constructor | src/utils/state.py:4 | no instance exists before the first call |
| State.GlobalStateClass.New | src/utils/state.py:6-10 | the first call creates an instance in "paper" mode; every later call returns that same instance with its mode unchanged; on every call the instance returned holds "real" or "paper", and the cache stays valid |
| KisClient.TokenStore.constructor | src/trading/kis_client.py:24 | the token file starts with the given contents |
| KisClient.LoadedToken | src/trading/kis_client.py:47-62 | a token is loaded iff the file holds one that expires after now, and it is that token |
| KisClient.Access | src/trading/kis_client.py:76-108 | a live held token is returned as is; otherwise the newly issued token, or the exchange's error |
| KisClient.RewriteTrId | src/trading/kis_client.py:112-114 | in paper mode a leading T, J or C becomes V and the rest is kept; other ids and other modes pass unchanged; an empty id in paper mode raises |
| KisClient.CheckReply | src/trading/kis_client.py:141-146 | a reply passes iff `rt_cd` is "0"; otherwise the error names `msg1`, or "Unknown error" |
| KisClient.Outcome | src/trading/kis_client.py:131-148 | `_request` succeeds iff a JSON reply arrived with `rt_cd` "0", and then returns that reply unchanged |
| KisClient.OrdDvsn | src/trading/kis_client.py:218 | order type "01" (market) exactly for price 0, otherwise "00" (limit) |
| KisClient.OrderBody | src/trading/kis_client.py:214-227 | a cash-order body has exactly the six KIS keys: account, product, code and order type, with quantity and price in decimal text that parses back to the given numbers |
| KisClient.Client.constructor | src/trading/kis_client.py:38-45 | a new client holds whatever `_load_token` finds and has made no exchanges |
| KisClient.Client.SaveToken | src/trading/kis_client.py:64-74 | the file receives the held token; with no token it is left as it was |
| KisClient.Client.GetToken | src/trading/kis_client.py:76-108 | returns `Access`; a live token is reused with no exchange; otherwise exactly one exchange is made, and on success its token is held and saved to the file |
| KisClient.MakeHeaders | src/trading/kis_client.py:116-123 | the header dictionary carries the token after `Bearer `, the configured app key and secret, the given TR id, JSON content and customer type "P" |
| KisClient.Client.GetHeaders | src/trading/kis_client.py:110-123 | an empty id in paper mode fails before any exchange and changes nothing; otherwise the token is refreshed, and headers exist iff the token was obtained, carrying the rewritten id and `Bearer` token |
| KisClient.Client.Request | src/trading/kis_client.py:125-148 | a request is sent iff the headers were built, to the base URL plus the path, as a GET with `params` when the verb is "GET" and as a POST with the body for any other verb; its result is `Outcome` of the reply, and nothing sent means an error |
| KisClient.Client.BuyStock | src/trading/kis_client.py:206-230 | a POST to the cash-order path under TTTC0802U (VTTC0802U in paper mode) carrying `OrderBody`, returning `Outcome` of the reply |
| KisClient.Client.SellStock | src/trading/kis_client.py:232-255 | the same under TTTC0801U (VTTC0801U in paper mode) |
| KisClient.ClientSlot.constructor | src/trading/kis_client.py:259 | no client exists before the first call |
| KisClient.ClientSlot.GetKisClient | src/trading/kis_client.py:262-267 | the first call builds a fresh client from the token file; later calls return that same client |
| LlmAnalyzer.ReplyItems | src/analysis/llm_analyzer.py:88-89 | a JSON array is taken as is; an object gives `recommendations`, else `stocks`, else nothing |
| LlmAnalyzer.CalculateBuyAmount | src/analysis/llm_analyzer.py:142-153 | confidence 9 and up gives the maximum, 5 and 6 the default, and 2 and below the minimum |
| LlmAnalyzer.TruncDivMonotone | src/analysis/llm_analyzer.py:144-151 | the truncating divisions of the interpolated tiers are monotone |
| LlmAnalyzer.InterpolatedTiers | src/analysis/llm_analyzer.py:144-151 | the two interpolations written out: confidence 3, 4, 7 and 8 give `int((2min+d)/3)`, `int((min+2d)/3)`, `int((3d+max)/4)` and `int((2d+2max)/4)` |
| LlmAnalyzer.LowerSteps | src/analysis/llm_analyzer.py:147-153 | with min ≤ default ≤ max the amount does not drop from confidence 2 to 5 |
| LlmAnalyzer.UpperMiddleStep | src/analysis/llm_analyzer.py:142-145 | with default ≤ max the amount for confidence 8 is at least that for 7 |
| LlmAnalyzer.UpperSteps | src/analysis/llm_analyzer.py:142-148 | with min ≤ default ≤ max the amount does not drop from confidence 6 to 9 |
| LlmAnalyzer.BuyAmountStep | src/analysis/llm_analyzer.py:142-153 | one more point of confidence never lowers the amount |
| LlmAnalyzer.BuyAmountMonotone | src/analysis/llm_analyzer.py:123-153 | the amount is non-decreasing in confidence for every pair of confidences |
| LlmAnalyzer.BuyAmountBounded | src/analysis/llm_analyzer.py:123-153 | the amount never leaves [min, max] |
| LlmAnalyzer.ConfiguredAmounts | src/analysis/llm_analyzer.py:43-45 | under the configured limits the interpolated tiers are 400000, 700000, 2000000 and 3000000 won |
| LlmAnalyzer.BuyDecision | src/analysis/llm_analyzer.py:93-103 | a buy decision with the item's fields or their defaults; with a positive price its quantity is `max(1, amount // price)`, otherwise the item's quantity or 1 |
| LlmAnalyzer.SellDecision | src/analysis/llm_analyzer.py:212-222 | a sell decision with the item's fields, or quantity 0, price 0 and confidence 5 when they are absent |
| LlmAnalyzer.BuyDecisions | src/analysis/llm_analyzer.py:91-113 | one buy decision per reply item, in order; none when the call or decoding failed |
| LlmAnalyzer.SellDecisions | src/analysis/llm_analyzer.py:167-222 | none for an empty portfolio or a failed call; otherwise one sell decision per reply item, in order |
| LlmAnalyzer.AnalyzeForBuy | src/analysis/llm_analyzer.py:29-120 | the loop returns exactly `BuyDecisions` of the reply |
| LlmAnalyzer.AnalyzeForSell | src/analysis/llm_analyzer.py:156-229 | the model is consulted iff the portfolio is non-empty, and the loop returns exactly `SellDecisions` |
| LlmAnalyzer.CleanCode | src/analysis/llm_analyzer.py:341 | the stripped code is empty when the item has none, never longer than the given code, and has no edge whitespace |
| LlmAnalyzer.ValidCode | src/analysis/llm_analyzer.py:345 | a code that passes has exactly six characters, all ASCII digits, so no whitespace or sign |
| LlmAnalyzer.Recommendation | src/analysis/llm_analyzer.py:350-360 | the record has the cleaned code, the item's name, reason and confidence and the quoted price, change and rate when given, and otherwise the source's defaults: empty name and reason, price, change and rate 0, confidence 5 |
| LlmAnalyzer.Recommended | src/analysis/llm_analyzer.py:340-367 | no more recommendations than items, and every one has a valid code |
| LlmAnalyzer.RecommendedKeeps | src/analysis/llm_analyzer.py:340-367 | every item with a valid cleaned code whose price lookup succeeded has its recommendation in the list |
| LlmAnalyzer.RecommendedFromItems | src/analysis/llm_analyzer.py:340-367 | every recommendation is built from some item with a valid code whose price lookup succeeded, with that item's name, reason and confidence and the looked-up price |
| LlmAnalyzer.GetDailyRecommendations | src/analysis/llm_analyzer.py:290-374 | at most three recommendations, drawn from the first three reply items via `Recommended`, all with valid codes; none when the call failed |
| Momentum.ScanCases | src/trading/momentum.py:85-102 | a scan has exactly one result: a unique first eligible stock, a stock without a code before any eligible one, or no target at all |
| Momentum.TargetOutcome | src/trading/momentum.py:104-145 | a missing name or price aborts; a failed cash lookup or cash below 100000 warns; approval carries the target's fields and the largest quantity within the budget; once name, price and cash pass, a price in 1..100000 is always sent for approval, a negative price or one above the budget always warns that the quantity is short, and price 0 always ends the scan as failed |
| Momentum.SavedForm | src/trading/momentum.py:46-52 | a time becomes its `%Y-%m-%d %H:%M:%S` text and is removed; other fields are kept |
| Momentum.SavedForms | src/trading/momentum.py:46-52 | every position is saved in its saved form, in order |
| Momentum.SavedOnSameDay | src/trading/momentum.py:30-34 | a position's saved `time_str` starts with today's date exactly when it was opened today |
| Momentum.SaveThenReload | src/trading/momentum.py:22-57 | saving then reloading on the same day yields exactly that day's positions, in order, in saved form |
| Momentum.SellNotice | src/trading/momentum.py:212-221 | a filled order confirms name and quantity, a refusal gives `msg1` or the default text, and an exception gives its error |
| Momentum.Scalper.constructor | src/trading/momentum.py:59-60 | module import: an empty list, then `load_state` |
| Momentum.Scalper.SaveState | src/trading/momentum.py:41-57 | the file holds every position in saved form; the list is unchanged |
| Momentum.Reloaded | src/trading/momentum.py:25-36 | after a load, the list holds exactly the stored entries whose `time_str` starts with today's date, and no more of them than are stored; a missing or unreadable file leaves the list as it was |
| Momentum.Scalper.LoadState | src/trading/momentum.py:22-39 | keeps what a readable file stamps with today's date; a missing or unreadable file leaves the list as it was |
| Momentum.Scalper.CheckMomentumAndScalp | src/trading/momentum.py:63-148 | outside 09:00–15:00 nothing is queried; otherwise the result follows the scan case, only the first eligible stock reaches the balance query, and an approved stock is never one already held |
| Momentum.ShortfallMessage | src/trading/momentum.py:166 | the refusal text is the sentence of line 166 with each amount in `Decimal.IntGrouped` form, so commas stand every fourth place from the end of each amount; without its commas it is the same sentence with `str` of each amount |
| Momentum.ShortfallExample | src/trading/momentum.py:166 | 1,000,000 needed against 200,000 held gives "잔액 부족: 필요 1,000,000원, 현재 예수금 200,000원" |
| Momentum.Scalper.ExecuteMomentumBuy | src/trading/momentum.py:151-195 | a proven shortfall returns `rt_cd` "1" with the shortfall text and no order; otherwise one market buy; a fill records and saves the position and confirms it; a refusal or exception changes nothing |
| Momentum.Scalper.SellAllScalps | src/trading/momentum.py:198-227 | an empty list does nothing, and neither does a raising client lookup (nothing sold, the list neither cleared nor saved); otherwise one market sell per position, in order, a notice each, then the list is cleared and saved |
| DailyJob.Portfolio | src/scheduler/daily_job.py:89-110 | the holdings of the balance reply, or none when the lookup raised |
| DailyJob.AvailableBudget | src/scheduler/daily_job.py:128-135 | the cash of the balance reply, or 0 on any failure |
| DailyJob.ExecuteTrade | src/scheduler/daily_job.py:137-165 | "buy" goes to `buy_stock` and anything else to `sell_stock`; one notice, successful iff the reply has `rt_cd` "0" |
| DailyJob.ProfitSumAppend | src/scheduler/daily_job.py:178 | the profit sum over two parts of the portfolio is the sum of the two sums |
| DailyJob.ProfitSum | src/scheduler/daily_job.py:178 | the daily profit of no holdings is 0; it is never negative when no holding lost and never positive when none gained |
| DailyJob.ProfitRate | src/scheduler/daily_job.py:179 | 0 for a non-positive total; otherwise rate × total = profit × 100, with the sign of the profit |
| DailyJob.Report | src/scheduler/daily_job.py:167-195 | nothing when the total lookup raises; otherwise one report with the total, the profit sum, its rate and one (name, rate) line per holding |
| DailyJob.ReportTotal | src/scheduler/daily_job.py:174-175 | when `output2` has a first record, the single report carries that record's `tot_evlu_amt` (0 when the key is missing) as its total value |
| DailyJob.Sells | src/scheduler/daily_job.py:42-56 | no sell decisions when the balance lookup or the model call failed or the portfolio is empty; otherwise one decision per reply item, in order; every one is a "sell" |
| DailyJob.Buys | src/scheduler/daily_job.py:66-70 | at most `max_buy_per_day` (3) buy decisions: the first ones of the reply |
| DailyJob.DailyTradingJob.constructor | src/scheduler/daily_job.py:25-27 | a new job is not halted |
| DailyJob.DailyTradingJob.StopTrading | src/scheduler/daily_job.py:197-200 | the halt flag is set |
| DailyJob.DailyTradingJob.ResumeTrading | src/scheduler/daily_job.py:202-205 | the halt flag is cleared |
| DailyJob.DailyTradingJob.TradeLoop | src/scheduler/daily_job.py:58-62 | executes the decisions in order until the halt flag is read set: none if already halted, the prefix before a stop, or all |
| DailyJob.DailyTradingJob.Trades | src/scheduler/daily_job.py:54-76 | every sell decision, then every buy decision, is executed under the one halt flag that a stop sets: the sells placed are the first min(n, sells), the total min(n, sells + buys) |
| DailyJob.DailyTradingJob.Decide | src/scheduler/daily_job.py:42-70 | the sell decisions for the first balance lookup's portfolio and at most `max_buy_per_day` buy decisions |
| DailyJob.DailyTradingJob.Run | src/scheduler/daily_job.py:29-87 | start and news notices, then the sells, then at most 3 buys, each executed and notified once, then the report; a halt already set places nothing; a stop after n orders places exactly min(n, total) |
| Routines.BudgetPerStock | src/scheduler/routines.py:33-44 | at least 100000; 100000 on a failed lookup; otherwise `int(cash × 0.5 / 3)`, so 6b ≤ cash < 6(b+1) |
| Routines.Quantity | src/scheduler/routines.py:60 | `int(budget / price)` is the most whole shares the budget pays for, positive iff price ≤ budget |
| Routines.KrOrder | src/scheduler/routines.py:59-67 | a market order (price 0) for the recommended code iff 0 < price ≤ budget, with at least one share and the most the budget allows |
| Routines.ExchangeFor | src/scheduler/routines.py:128-129 | the exchange `search_stock` reports, or "NAS" when the search finds nothing or has no exchange |
| Routines.UsOrder | src/scheduler/routines.py:143-152 | a limit order at the recommended price on the exchange iff 0 < price ≤ $500, with the most shares $500 buys |
| Routines.Planned | src/scheduler/routines.py:46-67 | no more planned orders than recommendations |
| Routines.PlannedFromRecommendations | src/scheduler/routines.py:46-67 | every planned order comes from some recommendation, whose order it is |
| Routines.PlannedKeeps | src/scheduler/routines.py:46-67 | every recommendation that yields an order has that order in the plan |
| Routines.PlannedAll | src/scheduler/routines.py:46-67 | when every recommendation yields an order, the plan has them all, in order |
| Routines.PlanOrders | src/scheduler/routines.py:46-67 | announces the first three recommendations and plans `Planned` of them, so at most three orders |
| Routines.IsSellCandidate | src/scheduler/routines.py:91-93 | a holding is a sell candidate exactly when its profit rate lies outside −3% to 5%, edges kept; a flat holding never is |
| Routines.SellCandidates | src/scheduler/routines.py:87-93 | exactly the holdings with a profit rate above 5% or below −3%, in order |
| Routines.ReplaceTime | src/scheduler/routines.py:73 | `replace(hour, minute, second)` keeps the day and the microseconds and sets the time of day |
| Routines.RunDate | src/scheduler/routines.py:73-75 | today's target time if it has not passed, otherwise 10 seconds after now; never earlier than the check |
| Routines.Schedule | src/scheduler/routines.py:72-84 | a job exists iff a scheduler exists and there are orders; it carries those orders, the run time and the market |
| Routines.MorningRoutine | src/scheduler/routines.py:14-107 | the first three recommendations become KR orders under `BudgetPerStock`, scheduled at 09:00:05; sell candidates come from the balance, or none when it failed |
| Routines.EveningRoutine | src/scheduler/routines.py:109-199 | the first three recommendations become US orders on their searched exchange, scheduled at 23:30; sell candidates come from the overseas balance, or none when it failed |
| Routines.OrderFor | src/scheduler/routines.py:214-220 | KR orders are domestic market buys; others are overseas buys at the order's price on its exchange, or "NAS" |
| Routines.NoticeFor | src/scheduler/routines.py:222-228 | filled iff the reply has `rt_cd` "0", rejected with `msg1` iff it does not, logged iff the order raised |
| Routines.ExecuteBuyOrders | src/scheduler/routines.py:201-228 | one order call and one notice per scheduled order, in order, each failure independent of the others |
| StockSearch.ContainsKorean | src/data/stock_search.py:68-70 | true iff some character is a Hangul syllable (U+AC00 to U+D7A3) |
| StockSearch.IndexOfKey | src/data/stock_search.py:162-167 | the table position of the key, or none iff no entry has it |
| StockSearch.FirstPartialMatch | src/data/stock_search.py:178-183 | the first entry whose key contains the query or its upper-cased form, or none iff no key does |
| StockSearch.Named | src/data/stock_search.py:163-165 | the entry's fields, with the fallback name when the entry has none |
| StockSearch.QueryUpper | src/data/stock_search.py:158 | `query.upper().strip()` is never longer than the query, has no lower-case ASCII letter and no edge whitespace |
| StockSearch.TickerShaped | src/data/stock_search.py:194 | a ticker-shaped text has one to five characters, none of them Hangul, a digit or whitespace |
| StockSearch.Search | src/data/stock_search.py:148-202 | a query equal to a key always finds that entry's code; nothing is found only when the query is no key, exactly or upper-cased, is not a six-digit code, and occurs in no key |
| StockSearch.UpperOrCode | src/data/stock_search.py:167-202 | after the exact lookup, nothing is found only when the upper-cased query is no key, the query is not a six-digit code and no key matches |
| StockSearch.PartialOrGuess | src/data/stock_search.py:177-202 | with no partial match, a Hangul query gives the KRX name search's answer and never a ticker; any other query finds the NAS ticker exactly when it is ticker-shaped; nothing is found only without a partial match |
| StockSearch.SearchExact | src/data/stock_search.py:162-166 | a key equal to the query wins, named after the query when the entry has no name |
| StockSearch.SearchUpper | src/data/stock_search.py:167-171 | otherwise a key equal to the stripped upper-cased query wins, named after that form |
| StockSearch.SearchCode | src/data/stock_search.py:174-175 | otherwise a six-digit query becomes a KR code named after itself, with no exchange |
| StockSearch.SearchPartial | src/data/stock_search.py:178-183 | without a direct hit, the first partially matching entry is returned, named after its key |
| StockSearch.SearchKorean | src/data/stock_search.py:186-191 | with no hit so far, a query with Hangul gives the KRX name search's answer, and nothing else |
| StockSearch.SearchTicker | src/data/stock_search.py:194-202 | otherwise a 1–5 letter query becomes a NAS ticker; anything else finds nothing |
| StockSearch.SearchMarkets | src/data/stock_search.py:148-202 | over a well-formed table every result is KR with no exchange, or US on NAS |
| StockSearch.PopularStocksWellFormed | src/data/stock_search.py:15-65 | every built-in entry is KR with no exchange, or US on NAS |
| StockSearch.SearchEmptyFirst | src/data/stock_search.py:178-183 | over a table without an empty key, the empty query returns the first entry, named after its key |
| StockSearch.PopularKeysNonEmpty | src/data/stock_search.py:15-65 | no key of the built-in table is empty |
| StockSearch.SearchEmptyQuery | src/data/stock_search.py:178-183 | the empty query returns 삼성전자 (005930), the first table entry |
| StockSearch.SearchStock | src/data/stock_search.py:148-202 | over `POPULAR_STOCKS`, nothing is found only when the query equals no key and occurs in none |
| StockSearch.SearchStockMarkets | src/data/stock_search.py:148-202 | `search_stock` only ever returns KR stocks with no exchange or US stocks on NAS |
| StockSearch.GetStockInfo | src/data/stock_search.py:205-226 | nothing iff the search finds nothing; otherwise code, name, market and the exchange or "" |
| StockScreener.ProfitableStocks | src/data/stock_screener.py:61-93 | the watchlist entries listed on KOSPI, in order; the whole watchlist when the lookup fails, returns no tickers or leaves nothing; never empty for a non-empty watchlist |
| StockScreener.Quoted | src/data/stock_screener.py:161-172 | a quote keeps the entry's code, name and sector, carries each price field given (current price, change rate, volume, high, low) and reads each missing one as 0 |
| StockScreener.QuotedAll | src/data/stock_screener.py:153-177 | one quote per entry whose price lookup succeeds, so no more than the entries |
| StockScreener.QuotedMembers | src/data/stock_screener.py:153-177 | a quote is in the list exactly when it is the quote of an entry whose price lookup succeeded |
| StockScreener.Insert | src/data/stock_screener.py:181-185 | inserting one stock adds exactly that stock to the multiset |
| StockScreener.InsertSorted | src/data/stock_screener.py:181-185 | insertion keeps a list ordered by descending change rate |
| StockScreener.SortByChangeRate | src/data/stock_screener.py:181-185 | a permutation of the input in descending change-rate order |
| StockScreener.FilterSortedDesc | src/data/stock_screener.py:186-187 | filtering a descending list keeps it descending |
| StockScreener.TopGainers | src/data/stock_screener.py:186 | at most five rising stocks of the input, in descending order |
| StockScreener.TopLosers | src/data/stock_screener.py:187 | at most five falling stocks of the input, in descending order |
| StockScreener.TopGainersAreTop | src/data/stock_screener.py:186 | a rising stock left out means five were chosen, each rising at least as much |
| StockScreener.TopLosersAreBottom | src/data/stock_screener.py:187 | a falling stock left out means five were chosen, each falling at least as much |
| StockScreener.Passes | src/data/stock_screener.py:214-220 | without a non-empty sector only volume and change rate decide; a passing stock has both in range; with a sector, a stock of another sector never passes |
| StockScreener.ScreenStocks | src/data/stock_screener.py:193-225 | exactly the stocks with enough volume, a change rate in range and, for a non-empty sector, that sector, in order |
| StockScreener.Screener.constructor | src/data/stock_screener.py:16-46 | the watchlist starts as the built-in 16 entries |
| StockScreener.Screener.GetKospiProfitableStocks | src/data/stock_screener.py:61-93 | only watchlist entries; the whole watchlist when the ticker lookup fails or lists nothing; when some watchlist codes are listed, exactly those entries in watchlist order; when none are, the whole watchlist; never empty for a non-empty watchlist |
| StockScreener.Screener.GetMarketData | src/data/stock_screener.py:131-190 | the quotes of the profitable watchlist, with their top gainers and top losers |
| StockScreener.Screener.GetSectors | src/data/stock_screener.py:228-230 | exactly the non-empty sectors of the watchlist |
| StockScreener.Screener.AddToWatchlist | src/data/stock_screener.py:233-246 | appended, and true, iff the ticker lookup fails or lists the code; otherwise false and unchanged |
| StockScreener.Screener.GetWatchlist | src/data/stock_screener.py:249-251 | the current watchlist |
| Favorites.Loaded | src/utils/favorites.py:24-34 | the file's map when it is readable, otherwise empty |
| Favorites.Without | src/utils/favorites.py:74-76 | drops exactly the items with the code, and is shorter iff one had it |
| Favorites.OthersUnchanged | src/utils/favorites.py:54-56 | updating one user's list leaves every other user's list as it was |
| Favorites.FavoritesManager.constructor | src/utils/favorites.py:13-34 | the map is what the file holds, or empty when it is missing or unreadable |
| Favorites.FavoritesManager.AddFavorite | src/utils/favorites.py:52-65 | added iff the user had no item with that code, then appended and saved; afterwards the code is present; other users are unchanged (src/tests/test_favorites.py:13-29) |
| Favorites.FavoritesManager.RemoveFavorite | src/utils/favorites.py:67-79 | an unknown user gives false; otherwise removed iff the code was present, saved iff removed; the code is absent afterwards; other users are unchanged (src/tests/test_favorites.py:32-45) |
| Favorites.FavoritesManager.GetFavorites | src/utils/favorites.py:81-83 | the user's list, or empty for an unknown user (src/tests/test_favorites.py:47-65) |
| NewsFetcher.Published | src/data/news_fetcher.py:75-80 | a valid parsed date gives its ISO text; any other gives "" |
| NewsFetcher.Shaped | src/data/news_fetcher.py:82-88 | title, link, source and date of the entry, with its summary cut to a 200-character prefix |
| NewsFetcher.RssItems | src/data/news_fetcher.py:72-90 | the first ten entries, each shaped, in order |
| NewsFetcher.FetchFromRss | src/data/news_fetcher.py:68-90 | the loop returns `RssItems`: at most ten items, all from the source, with summaries of at most 200 characters |
| NewsFetcher.Collected | src/data/news_fetcher.py:41-47 | at most ten items per source |
| NewsFetcher.CollectedSkipsFailures | src/data/news_fetcher.py:41-47 | every item of a source that answered is collected, whatever the other sources did |
| NewsFetcher.Titles | src/data/news_fetcher.py:53 | the set of titles that occur in the list |
| NewsFetcher.TitlesSnoc | src/data/news_fetcher.py:54 | appending an item adds its title to the set |
| NewsFetcher.Dedupe | src/data/news_fetcher.py:49-55 | no title repeats, every kept item was collected, and every title is kept |
| NewsFetcher.DedupeKeepsFirst | src/data/news_fetcher.py:49-55 | the first item with a given title is the one kept |
| NewsFetcher.InsertByPublished | src/data/news_fetcher.py:58-62 | inserting one item adds exactly that item to the multiset |
| NewsFetcher.InsertNewestFirst | src/data/news_fetcher.py:58-62 | insertion keeps a newest-first list newest-first |
| NewsFetcher.InsertDistinctTitles | src/data/news_fetcher.py:58-62 | inserting a new title keeps the titles distinct |
| NewsFetcher.SortByPublished | src/data/news_fetcher.py:58-62 | a permutation of the input, newest first by `published` |
| NewsFetcher.SortKeepsDistinctTitles | src/data/news_fetcher.py:58-62 | sorting keeps the titles distinct |
| NewsFetcher.CollectAll | src/data/news_fetcher.py:39-47 | the loop over the three sources returns `Collected` |
| NewsFetcher.DedupeByTitle | src/data/news_fetcher.py:49-55 | the loop with its seen-title set returns `Dedupe` |
| NewsFetcher.FetchNews | src/data/news_fetcher.py:29-65 | the first `max_items` of the de-duplicated, newest-first collection: distinct titles, ordered, at most `max_items`, all collected |
| NewsFetcher.StockNewsUrl | src/data/news_fetcher.py:105 | the search URL is the Google News RSS search address, the unescaped name, then the Korean locale parameters, so the name can be read back from it |
| NewsFetcher.SearchStockNews | src/data/news_fetcher.py:93-113 | the feed for the stock's Google News URL cut to `max_items`, all tagged `google_<name>`; none when the feed fails |

## Left out

- Network, HTTP, RSS parsing, pykrx, the language model and Discord are not modelled: their answers are parameters and their messages are returned values.
- The texts of notifications, embeds and log lines are left out; only which notice is sent and the data it carries are modelled.
- File I/O is modelled as the file's contents before and after. JSON encoding is not modelled, and neither is a write that fails (`_save_favorites_sync` and `save_state` only log that case; `_save_token` has no handler).
- KisClient.Client.GetToken: never fails after a successful exchange. In the source a failing write in `_save_token` (`src/trading/kis_client.py:64-74`) raises out of `_get_token` after the new token is already held in memory; the model's write always succeeds.
- Concurrency is not modelled: the asyncio lock and thread executor of the favorites file, the `await` points, and `stop_trading` arriving from another task. A stop is modelled as happening after a given number of orders (`stopAt`).
- `time.sleep` in `get_market_data` is left out: it only paces requests.
- Time is a clock value on one scale. Python's datetime limits (month lengths, leap years) are not checked: only field ranges are.
- Character classes are ASCII. Python's Unicode `isdigit`, `isalpha`, `upper` and `lower` are not modelled beyond ASCII, except for the Hangul syllable range.
- Floats are not modelled: change and profit rates are integers in hundredths of a percent. `int(cash * 0.5 / 3)` is modelled as `cash // 6` (`Routines.BudgetPerStock`), and US prices are whole dollars. `DailyJob.ProfitRate` uses exact real division.
- `get_balance`, `get_price` and `get_overseas_price` only build queries; their replies are parameters, so they are not modelled.
- `get_kis_client(mode)`, `get_rank_rising`, `get_overseas_balance`, `buy_overseas_stock` and `get_daily_recommendations(..., market=...)` are called with signatures that the shown client and analyzer do not define. The model treats them as the brokerage and model interfaces (an `OverseasBuy` call and the returned replies).
- The client lookup `get_kis_client(mode)` is taken to succeed, except in `sell_all_scalps`, where `Momentum.Scalper.SellAllScalps` takes its outcome as a parameter because a raising lookup there skips the clear-and-save. Elsewhere a raising lookup either propagates before anything has changed or is caught by a handler that only logs.
- `if balance:` in the morning routine is modelled as "the balance lookup succeeded". An empty reply dictionary, which Python treats as false, is not distinguished.
- `analyze_stock` and `check_profitability`, in the analyzer and the screener, are not part of this model; neither is the price predictor.
- `_load_kospi_cache` and `_search_by_pykrx` become the `listed` parameter: a function from a Korean name to its search result.
- The prompt texts sent to the model and the JSON extraction from its reply are left out; the decoded reply is a parameter.
- `get_kospi_profitable_stocks` returns the module list itself in its fallback cases, and `get_watchlist` returns a copy. Aliasing is not modelled: the model returns values.
- StockScreener.SortByChangeRate: stability (the order among equal change rates that Python's sort keeps) is built into the insertion sort but not stated as a property.
- NewsFetcher.SortByPublished: stability is likewise not stated; the order is the one on the `published` text.
- The popular-stock table's keys are not proved distinct. The search takes the first matching entry, which agrees with the dictionary lookup only for distinct keys.
