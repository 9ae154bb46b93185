# StockIQ in Dafny

A model of the deterministic core of StockIQ, a stock-analysis dashboard with a
paper-trading simulator. It has a React client and a FastAPI backend. The model
covers these parts, each proved against its own specification:

- **Web client (`frontend/src/App.js`):**
  - the paper-trading ledger: card buy, modal sell, the assistant's buy and sell handlers, adding and withdrawing funds, and the rupee conversion;
  - the rule-based chat assistant: query parsing, including the trade regular expression exactly as JavaScript runs it, and the dialogue machine over `botContext`;
  - the ticker search suggestions;
  - the candlestick deduplication and sort;
  - the chart's price change;
  - the indicator list editor;
  - the SIP calculator;
  - the home-page totals;
  - the route guard.
- **Suggestion box (`frontend/src/components/SuggestionDropdown.js`):** the combo box's filter and its state.
- **Backend (`backend/`):**
  - the backtester and the rule score;
  - the quote cache and the batch quote shaping;
  - the user and transaction stores, the ticker list, the backtest stub and the placeholder prediction;
  - the indicator dispatcher with SMA, RSI, Bollinger bands, OBV and the EMA crossover;
  - the dataset builder and the guards of the price model;
  - the news filter and the sentiment score.

Every value that arrives asynchronously becomes a parameter. This covers HTTP replies, the password check, fetched quotes, the current time and `Date.now()` ids. Prices and money are exact `real`s. A NaN or missing cell of a pandas column is `None` in a `seq<Option<real>>`. bcrypt, TextBlob polarity, exponentially weighted means and rolling standard deviations are functions the caller supplies.

The state that the source changes in place is modelled by classes:

- `Ledger.Ledger`: the portfolio, funds and exchange rate.
- `Chat.Assistant`: the message log, the dialogue context and the indicator page's configuration.
- `SuggestionDropdown.Dropdown`: the box's text, its open flag and the values handed to `onChange`.
- `FetchData.Cache`: the module-level cache.
- `Api.Stores`: the two JSON stores.
- `Indicators.Frame`: a data frame's columns.

Each method's `ensures` ties the new state to a pure function. The properties are proved about those functions.

`Wrappers`, `Text`, `Dict` and `Lists` are helper modules. They provide `Option`/`Result`, JavaScript and Python string operations (ASCII case mapping, `trim`, `strip`), insertion-ordered dictionaries with Python `dict` / JavaScript `Map` semantics, and filters and subsequences.

## Model

| member | source | states |
|---|---|---|
| Money.RateFollowsCurrency | frontend/src/App.js:25 | A ticker is converted at the exchange rate exactly when `getCurrency` shows it in dollars, and at rate 1 exactly when it shows rupees |
| Money.SuffixIgnoresCase | frontend/src/App.js:25 | A ticker is a rupee ticker (`IsIndian`) exactly when it ends with a dot followed by "n" or "N" and then "s" or "S", in any combination of cases |
| Money.Rate | frontend/src/App.js:178-180 | A positive exchange rate gives a positive conversion factor; any factor other than 1 is the exchange rate of a dollar ticker |
| Money.InrValue | frontend/src/App.js:179-180 | Non-negative price, quantity and rate give a non-negative rupee value; no shares or a zero price are worth nothing |
| Ledger.IndexOf | frontend/src/App.js:187 | `portfolio.find` by ticker: the first holding of that ticker, or none exists |
| Ledger.AveragePrice | frontend/src/App.js:188 | The new purchase price times the combined quantity equals the old cost plus the new cost; when the combined quantity is 0, the held price is kept (corrected, see Findings) |
| Ledger.AverageBetween | frontend/src/App.js:188 | With non-negative quantities and something held, the averaged price lies between the held price and the price paid |
| Ledger.Without | frontend/src/App.js:145 | Filtering out a ticker never lengthens the portfolio |
| Ledger.BuyHeld | frontend/src/App.js:186-188 | Buying a held ticker adds the quantity to that holding and averages its price; every other holding is unchanged and the length stays the same |
| Ledger.BuyNew | frontend/src/App.js:189 | Buying an unheld ticker appends exactly one holding with that quantity and price |
| Ledger.SellWhole | frontend/src/App.js:145 | Selling the whole position removes that holding and nothing else |
| Ledger.SellPart | frontend/src/App.js:146 | Selling part of a position lowers that holding's quantity and changes nothing else |
| Ledger.BuySellKeepUnique | frontend/src/App.js:186-189 | No buy or sell ever creates a second holding of the same ticker |
| Ledger.SellKeepsSigns | frontend/src/App.js:142-146 | Selling at most the held quantity keeps every quantity non-negative; selling a positive quantity out of a portfolio of positive holdings keeps them all positive |
| Ledger.ZeroShareBotBuysReachNaN | frontend/src/App.js:1246-1249 | Two zero-share bot buys of the same new ticker first append a holding of quantity 0; the second averages as written over 0 shares (NaN), while the corrected average leaves the holding unchanged |
| Ledger.Ledger.constructor | frontend/src/App.js:1184-1197 | The context starts with no holdings, no funds and rate 83.0, and is valid |
| Ledger.Ledger.SetExchangeRate | frontend/src/App.js:1413 | A missing or zero fetched rate falls back to 83.0 |
| Ledger.Ledger.CardBuy | frontend/src/App.js:177-193 | Refused with nothing changed when quantity ≤ 0 or the rupee cost exceeds the funds; otherwise the funds drop by exactly the rupee cost and the portfolio is the bought portfolio. Unique tickers and non-negative quantities are kept, and so are all-positive quantities |
| Ledger.Ledger.BotBuy | frontend/src/App.js:1236-1250 | Accepted exactly when the rupee cost is within the funds, with no quantity check; on success the funds drop by the cost and the portfolio is the bought portfolio; a refusal changes nothing |
| Ledger.Ledger.ModalSell | frontend/src/App.js:138-147 | Refused with nothing changed unless 0 < quantity ≤ held; otherwise the funds rise by the rupee value and the portfolio is the sold portfolio, keeping uniqueness and positivity |
| Ledger.Ledger.BotSell | frontend/src/App.js:1256-1273 | Accepted exactly when the ticker is held with at least the asked quantity; then the funds rise by the rupee value and the holding is removed or decremented; a refusal changes nothing |
| Ledger.Ledger.AddFunds | frontend/src/App.js:948 | A non-positive amount is refused and the funds are unchanged; otherwise the amount is added |
| Ledger.Ledger.Withdraw | frontend/src/App.js:949 | A non-positive amount, or one above the funds, is refused and nothing changes; otherwise the amount is taken and the funds stay non-negative |
| Chat.StripRemovesPunctuation | frontend/src/App.js:1359 | After `replace(/[.,?]/g, '')` no ".", "," or "?" is left; the result is a subsequence of the query, so order is kept, and every other character occurs exactly as often as in the query |
| Chat.StripKeepsPlainText | frontend/src/App.js:1359 | Text without those three characters is unchanged |
| Chat.FirstMentioned | frontend/src/App.js:1360 | The ticker found is the first in list order whose base name occurs in the query; none is found exactly when no base name occurs |
| Chat.FirstNamed | frontend/src/App.js:1365 | The ticker found is the first in list order with exactly the given base name; none is found exactly when no ticker has it |
| Chat.MatchTrade | frontend/src/App.js:1362 | A match of the trade expression captures a non-empty run of digits as the quantity |
| Chat.ParseTrade | frontend/src/App.js:1362-1367 | A trade is recognised only when the expression matches; it then names a listed ticker whose base name is the trimmed name part |
| Chat.PriceMatch | frontend/src/App.js:1327 | A captured price is a non-empty run of digits and dots |
| Chat.ParseFloat | frontend/src/App.js:1337 | `parseFloat` of such a run never gives a negative number |
| Chat.ParseFloatNaN | frontend/src/App.js:1337 | `parseFloat` gives NaN exactly when the run is empty or starts with a dot that no digit follows |
| Chat.LimitPrice | frontend/src/App.js:1327-1340 | A limit price exists exactly when a number was captured and `parseFloat` did not give NaN, and it is non-negative (corrected, see Findings) |
| Chat.DotReplyGivesNaNPrice | frontend/src/App.js:1327-1340 | As written, the reply "ok." captures "." and parses to NaN; the corrected limit price gives no price for it |
| Chat.RequestedIndicators | frontend/src/App.js:1290-1296 | A reply containing "all" selects the whole keyword table, and only indicators from the table are ever selected |
| Chat.ParsedTradeAwaitsPrice | frontend/src/App.js:1390-1391 | A parsed trade replies with a price prompt and waits in CONFIRM_TRADE with the parsed details |
| Chat.ConfirmTradeSteps | frontend/src/App.js:1326-1343 | In CONFIRM_TRADE, a market-price reply with a quote, or a reply holding a number, moves to AWAITING_PASSWORD with that price; a market-price reply without a quote ends the dialogue; any other reply stays in CONFIRM_TRADE |
| Chat.PasswordStepEndsDialogue | frontend/src/App.js:1344-1354 | When the password check rejects, there is no reply and the ledger is unchanged. Otherwise the context is cleared and the trade is confirmed exactly when the password was verified and the handler accepted the trade; an unverified password leaves the ledger unchanged |
| Chat.ParseQuery | frontend/src/App.js:1358-1378 | A trade is started exactly when the query without punctuation reads as a trade, and it names a listed ticker; an analysis or price request names the first listed ticker, in list order, whose base name the query mentions; with no trade and a mentioned ticker, an analysis prefix gives exactly the analysis, and otherwise a price prefix gives exactly the price request; greeting, acknowledgement and UNKNOWN hold exactly when nothing earlier applies and the stripped query is a greeting, else an acknowledgement, else neither |
| Chat.FreshSteps | frontend/src/App.js:1380-1401 | With no context: an analysis request waits for indicators over 1M; a price request shows the quote exactly when a non-zero one came back; intents other than a trade or analysis end with no context; the help text answers exactly the UNKNOWN intent |
| Chat.IndicatorSteps | frontend/src/App.js:1284-1318 | AWAITING_INDICATORS: a reply naming no known indicator keeps waiting; with indicators named, a failed fetch ends the dialogue and a successful one waits for graph confirmation of exactly those indicators |
| Chat.GraphSteps | frontend/src/App.js:1319-1325 | AWAITING_GRAPH_CONFIRMATION always ends the dialogue; exactly a yes-word gives the silent navigation to the indicator page with the chosen indicators, anything else the declining text |
| Chat.RejectionSteps | frontend/src/App.js:1329-1394 | No reply exactly when the awaited call rejects and the step awaits one: a market-price reply, the password check, or a fresh price request; a rejection leaves the ledger as it was, and the indicator steps never reject |
| Chat.SharesPhrasingLeavesName | frontend/src/App.js:1362 | Example: on "buy 10 shares of tcs" the alternation takes "share", so the name part is "s of tcs" |
| Chat.SharesPhrasingIsUnknown | frontend/src/App.js:1358-1378 | Example: "buy 10 shares of tcs" is UNKNOWN unless some ticker's base name is literally "s of tcs" |
| Chat.BuyTenTcs | frontend/src/App.js:1358-1367 | Example: "buy 10 tcs" with TCS.NS listed first starts a buy of ten TCS.NS shares |
| Chat.ListedNameIsTrade | frontend/src/App.js:1362-1367 | A query whose name part is a listed base name is a trade for the first such ticker, with the matched verb and quantity |
| Chat.UnlistedNameIsNoTrade | frontend/src/App.js:1365-1366 | A name part that no ticker has gives no trade |
| Chat.NothingMatchesIsUnknown | frontend/src/App.js:1369-1377 | A query that is no trade, has neither prefix and is no exact greeting or acknowledgement is UNKNOWN |
| Chat.BotTradeKeepsLedgerValid | frontend/src/App.js:1236-1275 | A refused bot trade changes nothing; an accepted one keeps tickers unique and quantities non-negative, and an accepted buy never overdraws non-negative funds |
| Chat.Assistant.constructor | frontend/src/App.js:1198-1200 | An assistant starts with no context, an empty log, no indicator-page configuration and the typing flag off |
| Chat.Assistant.Open | frontend/src/App.js:1059-1066 | Mounting the page turns the typing flag off; an empty log greets a signed-in user with the introduction message; a guest, or a non-empty log, leaves the log unchanged |
| Chat.Assistant.GetBotResponse | frontend/src/App.js:1279-1402 | The reply and the ledger afterwards are those of `Answer` in the current context: no reply when the awaited call rejects, otherwise the reply of `Respond` after the trade handler, if any, ran; the ledger stays valid |
| Chat.Assistant.SubmitQuery | frontend/src/App.js:1081-1096 | A blank query changes nothing. Otherwise the reply and ledger are those of `Answer`; the typing flag stays on exactly when the answer rejected; the reply is logged unless silent or rejected; a navigation action configures the indicator page; the reply's context becomes the new one, and a rejection keeps the old one |
| Chat.Assistant.Record | frontend/src/App.js:1087-1094 | A reply is appended to the log unless silent, its action replaces the indicator-page configuration, and its context replaces the old one |
| Chat.Assistant.Send | frontend/src/App.js:1098-1103 | A blank input, or any input while the bot is typing, changes nothing. Otherwise the ledger, typing flag, context and page follow `Answer` for the input, and the log gains the user's message and then the bot's, if any |
| Chat.Assistant.SaveEdit | frontend/src/App.js:1115-1121 | Every message with the edited id, the user's or the bot's, takes the new text and is marked edited (`Edited`). A blank text changes nothing else. Otherwise the ledger, typing flag, context and page follow `Answer` for the text, and the bot's message, if any, is appended to the edited log |
| Chat.Edited | frontend/src/App.js:1116-1118 | Every message with that id is rewritten to the new text and marked edited, keeping its sender and id (a bot message also keeps its reply); every other message and the length are unchanged |
| StockSearch.Suggestions | frontend/src/App.js:56 | No suggestions for an empty input; at most ten, each a listed ticker starting with the input regardless of case |
| StockSearch.SuggestionsAreFirstMatches | frontend/src/App.js:56 | The suggestions are the first ten matches in list order: as many as there are matches, up to ten, and a match preceded by fewer than ten matches sits at the position that count gives; a match is left out only when ten are already shown |
| Candles.Keyed | frontend/src/App.js:263 | Each row is keyed by its own timestamp, in order |
| Candles.Insert | frontend/src/App.js:271 | Inserting a candle into a strictly increasing list keeps it strictly increasing and adds exactly that candle |
| Candles.SortByTime | frontend/src/App.js:271 | Sorting candles with distinct times gives a strictly increasing permutation of them |
| Candles.DedupedEntries | frontend/src/App.js:263 | Each entry of the `Map` is keyed by its own row's timestamp, and no key repeats |
| Candles.Unsorted | frontend/src/App.js:263-270 | One candle per deduplicated map entry, made from that entry's row |
| Candles.Processed | frontend/src/App.js:263-271 | The processed candles have strictly increasing times |
| Candles.LastIndex | frontend/src/App.js:263 | Reference definition: the last row with a timestamp, or none has it |
| Candles.LastValueIsLastRow | frontend/src/App.js:263 | The `Map`'s later-assignment-wins value for a timestamp is the last row with that timestamp |
| Candles.ProcessedCandles | frontend/src/App.js:263-271 | Every candle takes its prices from the last row with its timestamp, and every input timestamp has a candle |
| PriceChange.Relative | frontend/src/App.js:530-532 | The amount is last minus base; the percentage is amount / base × 100 for a positive base and 0 otherwise; positive means amount ≥ 0 |
| PriceChange.PeriodChange | frontend/src/App.js:527-541 | Positive exactly when the amount is at least 0, and the percentage never has the opposite sign of the amount; each branch's value is stated by the four lemmas below |
| PriceChange.OneDayUsesQuote | frontend/src/App.js:529-533 | On "1D" with a truthy current price and previous close, the whole change is the one from the previous close to the current price |
| PriceChange.PeriodUsesFirstOpenAndLastClose | frontend/src/App.js:534-540 | Outside the quote case, with two or more rows and both prices present, the whole change (amount, percentage and sign) runs from the first open to the last close |
| PriceChange.TooFewPricesIsFlat | frontend/src/App.js:535-538 | Outside the quote case, fewer than two rows or a missing first open or last close give no change, counted as positive |
| PriceChange.OneDayNeedsPreviousClose | frontend/src/App.js:529 | On "1D" a missing or zero current price or previous close falls back to the rows, as any other view does |
| IndicatorSettings.Find | frontend/src/App.js:601 | The first catalogue entry with that name, or none has it |
| IndicatorSettings.Added | frontend/src/App.js:599-605 | An empty or unknown name leaves the list unchanged; a known one appends that entry's defaults with the given id |
| IndicatorSettings.Removed | frontend/src/App.js:607-609 | No entry with that id remains, and every other entry is kept |
| IndicatorSettings.Updated | frontend/src/App.js:611-615 | Only entries with that id change, and only in their parameters; names, ids and length are kept |
| IndicatorSettings.RemovedKeepsOrder | frontend/src/App.js:608 | Removal keeps the surviving entries in their order |
| IndicatorSettings.AddThenRemove | frontend/src/App.js:599-609 | Removing an indicator just added under a fresh id restores the list |
| IndicatorSettings.UpdateReadsBack | frontend/src/App.js:613 | An updated entry reads the new value under the key, and its other parameters read as before |
| Sip.Calculate | frontend/src/App.js:911-918 | The invested amount is the monthly deposit times the months; the returns are the future value minus that; at rate 0 the future value equals the invested amount |
| Sip.MonthlyRate | frontend/src/App.js:912 | The monthly rate is zero exactly when the expected yearly return is, and never negative for a non-negative return |
| Sip.GeometricSum | frontend/src/App.js:914 | The annuity identity: the deposits grown month by month, times the monthly rate, equal m·((1+i)^n − 1)(1+i) |
| Sip.FutureValueIsDepositsGrown | frontend/src/App.js:911-918 | For every rate, zero included, the future value is exactly the deposits each grown to the end of the plan |
| Sip.DepositsWithoutGrowth | frontend/src/App.js:913 | Without growth the deposits simply add up, matching the rate-0 branch |
| Sip.ReturnsNonNegative | frontend/src/App.js:914-916 | A non-negative deposit and rate never give negative returns |
| Dashboard.ComputeMetrics | frontend/src/App.js:372-395 | A failed quote request gives all-zero metrics; otherwise the invested total, the profit (value less invested) and today's change over the quoted holdings, in rupees |
| Dashboard.ProfitIsValueMinusInvested | frontend/src/App.js:386-387 | The profit accumulated holding by holding is the live value less the invested amount |
| Dashboard.InvestedNonNegative | frontend/src/App.js:382-386 | Non-negative quantities, prices and rate give a non-negative invested total |
| Dashboard.UnquotedCountsNothing | frontend/src/App.js:378-380 | Holdings without a live quote add nothing: with none quoted, the invested total, live value and today's change are all zero |
| Routes.Guard | frontend/src/App.js:1526-1539 | No user redirects to /login remembering the path; a practice user on a route that does not allow practice sees the guest prompt; everyone else sees the page |
| Routes.TrimSlashes | frontend/src/App.js:1503-1516 | The path with its trailing slashes removed: a prefix of it that ends in no slash unless it is the root, and everything cut off was a slash |
| Routes.Lookup | frontend/src/App.js:1503-1516 | A found flag belongs to a route-table entry with that normalised path; no flag is found exactly when no entry has it |
| Routes.Route | frontend/src/App.js:1503-1517 | A location that matches /login, in any case and with trailing slashes, shows the login page; one that matches a table entry gets that entry's guard; any other location redirects, to / for a signed-in user and to /login otherwise |
| Routes.GuardedPages | frontend/src/App.js:1530-1538 | A location matching a guarded route, in any case and with or without trailing slashes, is shown to a signed-in user exactly when the user is not in practice mode or the route allows it, and sends a visitor to /login |
| Routes.UniquePaths | frontend/src/App.js:1504-1516 | No path is listed twice |
| Routes.LookupFinds | frontend/src/App.js:1504-1516 | With distinct paths, the lookup returns each entry's own flag |
| Routes.GuestAccess | frontend/src/App.js:1504-1516 | Example: the guest account reaches the funds page at /funds and at /Funds/ but gets the guest prompt on the SIP calculator |
| SuggestionDropdown.Filtered | frontend/src/components/SuggestionDropdown.js:26-28 | A suggestion is kept exactly when its lowercase form contains the lowercase input; every kept entry is a suggestion |
| SuggestionDropdown.FilteredKeepsOrder | frontend/src/components/SuggestionDropdown.js:26-28 | The filter keeps the order, and an empty input keeps every suggestion |
| SuggestionDropdown.CheckMarks | frontend/src/components/SuggestionDropdown.js:66 | A shown suggestion carries the check mark exactly when it equals the input |
| SuggestionDropdown.Dropdown.constructor | frontend/src/components/SuggestionDropdown.js:8-9 | The box starts with the parent's value, closed, with nothing sent to the parent |
| SuggestionDropdown.Dropdown.ValueChanged | frontend/src/components/SuggestionDropdown.js:12-14 | A new `value` prop replaces the text and nothing else changes |
| SuggestionDropdown.Dropdown.Select | frontend/src/components/SuggestionDropdown.js:30-34 | Selecting sets the text to the choice, sends it to the parent and closes the list |
| SuggestionDropdown.Dropdown.Type | frontend/src/components/SuggestionDropdown.js:43-46 | Typing sets the text, sends it to the parent and opens the list |
| SuggestionDropdown.Dropdown.MouseDown | frontend/src/components/SuggestionDropdown.js:16-24 | A press outside the box closes the list, and one inside leaves it as it was |
| SuggestionDropdown.Dropdown.OpenChange | frontend/src/components/SuggestionDropdown.js:38 | The popover's open request becomes the open flag |
| SuggestionDropdown.SelectedIsShownAndChecked | frontend/src/components/SuggestionDropdown.js:26-34 | After a suggestion is selected it is still listed, and it carries the check mark |
| Backtester.Clean | backend/backtester.py:10 | Cleaning never yields more bars than rows; which bars, and in what order, is stated by the next lemma |
| Backtester.CleanKeepsCompleteRows | backend/backtester.py:10 | Cleaning keeps exactly the rows with a close and a score, in order, each as its bar: one row gives a bar exactly when complete, and cleaning two runs is cleaning them together |
| Backtester.FirstExit | backend/backtester.py:36-49 | A found exit is the first day in the scanned range that touches a level, sold at take-profit when the high reaches it (checked first) and otherwise at the stop-loss |
| Backtester.ExitOf | backend/backtester.py:28-49 | The exit lies after the entry and at most the holding period later; no earlier day touched a level; a level exit sells at that level, take-profit winning a day that touches both; otherwise the close at the end of the holding period |
| Backtester.Entries | backend/backtester.py:21-24 | Entry rows lie below the bound |
| Backtester.EntriesAreQualifyingRows | backend/backtester.py:21-24 | A trade opens at row i exactly when i is below the bound and its score reaches the threshold, and entries come in increasing order |
| Backtester.BacktestFollowsEntries | backend/backtester.py:12-24 | One trade per entry row, in entry order: none when fewer than holding_days + 1 clean rows remain, and at most len − holding_days otherwise |
| Backtester.TradesAtEntries | backend/backtester.py:21-60 | The k-th trade is bought at the k-th entry row's date and close |
| Backtester.BacktestStrategy | backend/backtester.py:8-62 | The loop's result list is exactly the specified backtest |
| Backtester.ScanHoldingPeriod | backend/backtester.py:31-49 | The loop with `break` finds the specified exit |
| Backtester.ExitReturns | backend/backtester.py:28-51 | With a non-zero buy price, a take-profit exit returns exactly the take-profit percentage and a stop-loss exit exactly minus the stop-loss percentage |
| Scoring.GenerateScore | backend/scoring.py:12-42 | 0 when close or either EMA is missing; otherwise the sum of the four components capped at 100; always in [0, 100] |
| Scoring.TrendPoints | backend/scoring.py:19-20 | At most 30 points, awarded exactly when the 20-day EMA is above the 50-day EMA |
| Scoring.MomentumPoints | backend/scoring.py:23-30 | 30 points exactly for an RSI below 30, 5 exactly for one above 70, 15 exactly for one from 30 to 70, and 0 exactly without an RSI |
| Scoring.BandPoints | backend/scoring.py:33-35 | At most 20 points, awarded exactly when the close is above a present lower band |
| Scoring.VolumePoints | backend/scoring.py:38-40 | At most 20 points, awarded exactly for a volume spike above 1.8 |
| Scoring.CapNeverBinds | backend/scoring.py:19-42 | The components add up to at most 100, so a complete row scores exactly their sum |
| Scoring.FullScore | backend/scoring.py:19-42 | A score of 100 needs an up-trend, an oversold RSI, a close above the lower band and a volume spike |
| FetchData.PeriodParams | backend/fetch_data.py:31-47 | A key in the table gets its own entry; any other key gets range 1mo and interval 90m |
| FetchData.OneMonthIsFallback | backend/fetch_data.py:34 | Example: the "1M" entry is exactly the fallback: one month of 90-minute bars |
| FetchData.FiveYearPeriod | backend/fetch_data.py:37 | Example: "5Y" asks for five years of weekly bars |
| FetchData.Lookup | backend/fetch_data.py:20-25 | Data is served only for a stored key |
| FetchData.StoredEntryServed | backend/fetch_data.py:20-28 | Data just stored is served until 120 seconds have passed, and other keys read as before |
| FetchData.Cache.constructor | backend/fetch_data.py:17 | The cache starts empty |
| FetchData.Cache.Set | backend/fetch_data.py:27-28 | The entry under the key becomes the data stamped with now; other keys as in the dictionary update |
| FetchData.DropNa | backend/fetch_data.py:73 | Dropping incomplete rows never yields more bars than rows |
| FetchData.DropNaKeepsCompleteRows | backend/fetch_data.py:73 | One row gives a bar exactly when no column is null, and cleaning a concatenation is cleaning each part in turn, so complete rows survive in order |
| FetchData.DropNaMembers | backend/fetch_data.py:73 | A bar is in the cleaned frame exactly when some complete row gives it |
| FetchData.Historical | backend/fetch_data.py:41-82 | A frame younger than 120 seconds is returned with no request and the cache unchanged. Otherwise the period's range and interval are requested. A read reply gives the cleaned rows, cached as a frame stamped now; a caught failure gives an empty frame and leaves the cache as it was |
| FetchData.RepeatedHistoryIsCached | backend/fetch_data.py:41-45 | Within 120 seconds of a read history, the same ticker and period are answered with the same cleaned frame, with no request and no cache change |
| FetchData.HistoryKeyIsNotBatch | backend/fetch_data.py:42 | A history cache key never collides with a batch key |
| FetchData.FetchHistoricalData | backend/fetch_data.py:41-82 | The frame and the new cache are those of the history function |
| FetchData.PutKeepsValid | backend/fetch_data.py:27-28 | Storing a frame under a history key or a batch result under a batch key keeps batch keys holding batch results |
| FetchData.FetchDataForRange | backend/fetch_data.py:161-162 | The dates are ignored: the result is the five-year history |
| FetchData.FieldOrZero | backend/fetch_data.py:143-145 | An absent field reads 0, a null stays null, a number is kept |
| FetchData.QuotePairs | backend/fetch_data.py:139-146 | Every collected symbol is non-empty |
| FetchData.Rename | backend/fetch_data.py:151-153 | ^NSEI becomes "NIFTY 50", ^BSESN becomes "SENSEX", any other symbol is kept |
| FetchData.RenamedPairs | backend/fetch_data.py:150-153 | The remap loop's assignments, one per collected quote, with each key renamed |
| FetchData.BatchResult | backend/fetch_data.py:118-159 | No tickers give {} with no request and no cache change; the quote service is asked exactly when there are tickers and no fresh batch is cached under their key, and a fresh cached batch is returned as it is; a failed request gives the all-zero fallback and leaves the cache; a read one gives the shaped result, cached under the batch key; without a request the cache is unchanged |
| FetchData.RepeatedBatchIsCached | backend/fetch_data.py:121-125 | Within 120 seconds the same batch is answered from the cache, without a request |
| FetchData.FetchBatchStockInfo | backend/fetch_data.py:118-159 | The result and the new cache are those of the batch function |
| FetchData.CachedBatchIsBatch | backend/fetch_data.py:123-125 | What a batch key finds in a valid cache is a batch result |
| FetchData.ShapeQuotes | backend/fetch_data.py:136-153 | The two loops build exactly the shaped batch result |
| FetchData.ShapedLookup | backend/fetch_data.py:136-153 | A plain symbol reads the quote of the last item with that symbol; "NIFTY 50" and "SENSEX" read the last index quotes unless an item carries the display name itself; index symbols are gone |
| FetchData.NoIndexSymbol | backend/fetch_data.py:150-153 | After renaming, no key is ^NSEI or ^BSESN |
| FetchData.ReadsThrough | backend/fetch_data.py:150-153 | When one collected symbol alone is renamed to a key, that key reads its quote |
| FetchData.FallbackLookup | backend/fetch_data.py:157-159 | On failure every requested ticker reads the all-zero quote and nothing else is in the result |
| Api.SignUp | backend/main.py:117-124 | A taken username fails with 400 and changes neither store; otherwise the password's hash is stored and the user's transaction list is reset to empty, with other users untouched |
| Api.LogIn | backend/main.py:126-132 | 404 unless the user exists and the password verifies against the stored hash; otherwise the username |
| Api.VerifyPassword | backend/main.py:134-140 | True exactly when the user exists and the password verifies |
| Api.VerifyAgreesWithLogIn | backend/main.py:126-140 | Verification answers true exactly when login succeeds |
| Api.SignUpThenLogIn | backend/main.py:117-132 | With a sound hasher a new user can log in with the password they signed up with |
| Api.SignUpTwice | backend/main.py:120 | A second signup under the same name fails and the first password still logs in |
| Api.Transactions | backend/main.py:150-153 | The stored list, or [] for an unknown user |
| Api.Logged | backend/main.py:142-148 | The user gets a list and every other user's list is unchanged |
| Api.LoggedNewestFirst | backend/main.py:145-146 | After logging, the transaction is first and the older ones follow in order; others' lists read as before |
| Api.LoggedInReverse | backend/main.py:145-146 | Transactions logged one after another are listed in reverse order, before the older ones |
| Api.Reversed | backend/main.py:145-146 | Reference definition of the newest-first order: element i is the input's element counted i from the end |
| Api.Stores.constructor | backend/main.py:94-100 | Both stores start empty and valid |
| Api.Stores.Signup | backend/main.py:117-124 | The reply and both new stores are those of the signup function; every user keeps a transaction list |
| Api.Stores.Login | backend/main.py:126-132 | The reply of the login function; the stores are unchanged |
| Api.Stores.Verify | backend/main.py:134-140 | The answer of the verify function; the stores are unchanged |
| Api.Stores.LogTransaction | backend/main.py:142-148 | The transaction store becomes the logged store and the status is "success"; users are unchanged |
| Api.Stores.GetTransactions | backend/main.py:150-153 | The user's stored list, or []; the stores are unchanged |
| Api.BelowIrreflexive | backend/main.py:183 | No string sorts below itself |
| Api.BelowTransitive | backend/main.py:183 | Python's string order is transitive |
| Api.BelowTotal | backend/main.py:183 | Of two different strings, one sorts below the other |
| Api.SortedIsDistinct | backend/main.py:183 | A strictly sorted list has no duplicates |
| Api.Insert | backend/main.py:183 | Inserting into a strictly sorted list keeps it strictly sorted, with exactly the old elements and the new one |
| Api.SortedSet | backend/main.py:183 | `sorted(set(s))` is strictly sorted and has exactly the elements of s |
| Api.SymbolTicker | backend/main.py:181 | Every ticker built from a symbol ends in ".NS" |
| Api.Suffixed | backend/main.py:180-181 | Never more tickers than cells |
| Api.SuffixedHas | backend/main.py:180-181 | Every non-empty cell's ticker is in the list |
| Api.SuffixedFrom | backend/main.py:180-181 | Every ticker in the list comes from a non-empty cell |
| Api.AllTickers | backend/main.py:163-188 | Without a usable CSV, the international list; otherwise a strictly sorted list containing exactly the international tickers, HINDZINC.NS and each suffixed symbol |
| Api.TickersAreDistinct | backend/main.py:183 | A list built from the CSV has no duplicates |
| Api.RunBacktest | backend/main.py:249-251 | Every backtest request fails with 501 |
| Api.Predict | backend/main.py:236-247 | 404 exactly for an empty frame; otherwise accuracy 0.75, status HOLD and sentiment 0.5 |
| Api.PredictIsTrainedProjection | backend/main.py:239-240 | The endpoint's price equals the trained model's projection of the same closes, and lies above a positive last close |
| Api.PredictStock | backend/main.py:231-247 | The reply is the prediction from the one-month history the cache or the service gives |
| Indicators.Negated | backend/indicators.py:21 | Every cell negated, NaN kept |
| Indicators.Window | backend/indicators.py:9 | A rolling window exists exactly for a non-negative whole number |
| Indicators.Values | backend/indicators.py:9 | The values of a NaN-free window, in order |
| Indicators.Mean | backend/indicators.py:9 | The mean of a window, NaN exactly when the window holds a NaN |
| Indicators.RollingMean | backend/indicators.py:9 | NaN on the first w − 1 rows (every row for w = 0), then the mean of the last w cells |
| Indicators.Sma | backend/indicators.py:7-10 | A valid period writes "SMA_<period>" as the rolling mean of Close; an invalid one raises |
| Indicators.Diff | backend/indicators.py:19 | NaN on the first row and next to a NaN, otherwise the change from the previous close |
| Indicators.Gains | backend/indicators.py:20 | Gains are never negative |
| Indicators.Losses | backend/indicators.py:21 | The negated losses are never negative |
| Indicators.RsiCell | backend/indicators.py:22-25 | 50 where the ratio is NaN or infinite; otherwise the cell times (gain + loss) equals 100 × gain, and it lies in [0, 100] for non-negative inputs |
| Indicators.RsiClosedForm | backend/indicators.py:22-24 | 100 − 100 / (1 + g / l) equals 100 g / (g + l) and lies in [0, 100] |
| Indicators.RsiColumn | backend/indicators.py:22-25 | One cell per row, the RSI cell of that row's smoothed gain and loss |
| Indicators.Rsi | backend/indicators.py:17-26 | Succeeds exactly when there is a Close column and the period is at least 1. The result writes "RSI" as `RsiColumn` of the smoothed gains and the negated smoothed losses of the Close differences, both non-negative |
| Indicators.RsiBounded | backend/indicators.py:22-25 | For sign-preserving smoothing, the frame `Rsi` returns has an RSI column as long as Close, every cell defined and in [0, 100] |
| Indicators.CrossCell | backend/indicators.py:84-85 | 0 on the first row; 1 exactly when fast moves from not above to above slow; −1 exactly on the reverse move; 0 otherwise |
| Indicators.CrossColumn | backend/indicators.py:84-85 | The crossover cell for every row |
| Indicators.EmaCross | backend/indicators.py:77-86 | Spans of at least 1 write "EMACross_<fast>_<slow>" as the crossover column of the two means; smaller spans raise |
| Indicators.Band | backend/indicators.py:44-46 | Each cell is the middle plus the deviation times k, NaN where either is |
| Indicators.BandsSymmetric | backend/indicators.py:44-46 | Upper − middle = middle − lower = std × k, and both bands are defined exactly when middle and deviation are |
| Indicators.BBands | backend/indicators.py:39-47 | A valid period writes BB_Upper, BB_Middle and BB_Lower around the rolling mean; an invalid one raises |
| Indicators.RunningObv | backend/indicators.py:50 | OBV is 0 on the first row and then adds each row's sign of change times volume |
| Indicators.ObvMovesByVolume | backend/indicators.py:50 | Between rows OBV moves by the whole volume up, down, or not at all |
| Indicators.Obv | backend/indicators.py:49-51 | With a Volume column, writes "OBV" as the running sum; without one, raises |
| Indicators.Step | backend/indicators.py:176-185 | An unknown request, or one whose calculation raises, leaves the frame as it was; a successful calculation's frame replaces it |
| Indicators.CalculatedAppend | backend/indicators.py:175-185 | Running a list of requests is running its first part and then the rest on the result |
| Indicators.UnknownChangeNothing | backend/indicators.py:179-181 | Requests with unknown names change nothing |
| Indicators.FailureIsSkipped | backend/indicators.py:182-185 | A raising calculation is skipped and the later requests still run |
| Indicators.Frame.constructor | backend/indicators.py:169 | A frame holds the given columns and rows |
| Indicators.Frame.Copy | backend/indicators.py:173 | A fresh frame with the same columns and rows |
| Indicators.Frame.Apply | backend/indicators.py:183-185 | The frame's columns become those after one calculation, or stay as they were when it raises |
| Indicators.CalculateIndicators | backend/indicators.py:169-187 | An empty frame or one without Close is returned itself; otherwise a fresh copy holds the requests' result in order, and the caller's frame is unchanged |
| MlModel.CreateDataset | backend/ml_model.py:16-22 | max(0, n − time_step − 1) pairs; pair i is rows i .. i + time_step − 1 with target row i + time_step, and the last row is never a target |
| MlModel.WindowThenTarget | backend/ml_model.py:19-21 | A window and its target are consecutive rows |
| MlModel.Present | backend/ml_model.py:26 | `dropna` never lengthens the column |
| MlModel.PresentCells | backend/ml_model.py:26 | A value survives `dropna` exactly when some cell holds it |
| MlModel.Min | backend/ml_model.py:31 | The minimum is an element and bounds every element from below |
| MlModel.Max | backend/ml_model.py:31 | The maximum is an element and bounds every element from above |
| MlModel.Train | backend/ml_model.py:24-32 | A scaler exists exactly when there is a Close column with at least 80 non-missing closes; its range is attained by the closes and bounds them all |
| MlModel.ShortFrameDoesNotTrain | backend/ml_model.py:27-29 | Fewer than 80 rows never train |
| MlModel.GetPrediction | backend/ml_model.py:34-47 | Without a scaler the last close grown by 0.1% with accuracy 0.50, with one by 0.5% with accuracy 0.75; no price when the last close is NaN |
| MlModel.PredictionRises | backend/ml_model.py:40-44 | For a positive last close both projections rise, and the trained one rises more |
| NewsHelper.Format | backend/news_helper.py:26-31 | Title and time are kept; a missing publisher reads "No publisher provided" and a missing link "#" |
| NewsHelper.Formatted | backend/news_helper.py:23-31 | Never more articles than items |
| NewsHelper.FormattedIsFilterThenFormat | backend/news_helper.py:23-31 | The articles are exactly the usable items, in order, each formatted |
| NewsHelper.GetNews | backend/news_helper.py:10-36 | No news or an error gives []; otherwise the usable items among the first eight, formatted, in order |
| NewsHelper.AtMostEight | backend/news_helper.py:23 | At most eight articles come back, each a usable item among the first eight |
| NewsHelper.Scores | backend/news_helper.py:42 | Never more scores than items |
| NewsHelper.AnalyzeSentiment | backend/news_helper.py:38-47 | 0.5 when no item has a title; otherwise 2r − 1 is the mean polarity |
| NewsHelper.ScoresFromTitles | backend/news_helper.py:42 | Every score is the polarity of some title |
| NewsHelper.SentimentInUnitRange | backend/news_helper.py:45-47 | With polarities in [−1, 1] the sentiment lies in [0, 1] |

## Left out

- Rendering, toasts, charts, styling and theme handling are presentation. The toast messages are modelled only as the `Outcome` a ledger operation reports.
- `toFixed`, `toLocaleString`, `round(x, 2)` and `round(x, 3)` are display rounding. Money, returns and the sentiment are exact reals.
- The HTTP client, the quote service, yfinance, feedparser and FastAPI routing are not modelled. Their replies are parameters: `Answers` for the assistant, `HistoryReply`/`BatchReply` for the cache, and `TickerCsv` for the ticker file. `fetch_stock_info` and the `/analyze`, `/export`, `/market-indices` and news endpoints are not part of this model.
- The JSON files behind the stores and the browser's localStorage are in-memory maps and fields.
- Timers, the 30-second refresh, React effect scheduling and the stale values a closure may hold are not modelled. Each handler sees the state current when it runs.
- `logTransaction` from the ledger handlers is not modelled. The store side of it is `Api.Logged`.
- bcrypt's salt is a parameter of `Api.SignUp`, so a hash is a function of the password and the salt.
- The Keras model and the scaler's transform are not modelled. `MlModel.Train` returns only the fitted range.
- `MlModel.CreateDataset` works on column 0 as a `seq<real>`.
- MlModel.GetPrediction: requires a non-empty Close column; the source raises an IndexError on an empty Close column, and no caller of it exists in the source.
- FetchData.Historical: an AttributeError (a `"chart": null` reply) or a ValueError (open, high, low, close and volume arrays of unequal length) is not caught by `fetch_historical_data` and propagates to its caller; the reply type has no such case, so the model does not capture these two escapes (the same holds for FetchData.FetchHistoricalData).
- Exponentially weighted means, rolling standard deviations, Python's `str` of a parameter, and the nine indicators built on them (EMA, MACD, StdDev, BBands_%B, DEMA, StochRSI, Klinger, LinReg, TSI) are given by the caller as `Indicators.Numerics`.
  - Indicators.RsiBounded: holds for smoothing that keeps signs (a weighted mean with non-negative weights, as pandas' `ewm` is); that property of `ewm` is a precondition, not proved.
  - When one of the abstract indicators raises after writing some columns, the model keeps the frame as it was before it.
- A frame's columns are not tied to its row count in the model. Pandas' length checks on assignment are not modelled.
- A NaN pandas cell and a null JSON field are both `None`. `NewsHelper` treats a key present with a null value like a missing key.
- Api.AllTickers: reading the CSV is a parameter (`TickerCsv`): no file, no SYMBOL column, an exception while reading, or the column's cells, each a string or empty. A cell that is neither is not modelled; the source's `except` branch is `ReadFailed`.
- Scoring.GenerateScore: the `except` branch that returns 0.0 is not modelled; with exact reals and present values nothing in the try block raises.
- Backtester.BacktestStrategy: a negative `holding_days` is outside `nat`, and the source then indexes past the frame and raises. Dates stay integer timestamps, not formatted strings.
- IndicatorSettings.Updated: `Number(value)` parsing of the typed text is left to the caller, who passes a real.
- Sip.Calculate: the number of years is a whole number, and `Math.pow` is exact.
- Case mapping (`toLowerCase`, `toUpperCase`) is modelled for ASCII letters only.
- The assistant's AWAITING_INDICATORS step reads the fetch result only as success or failure. The indicator values it prints are display text, and the page-level `stockData`, `analyzedTicker`, loading and error state that `fetchStockData` writes along the way are not modelled.
- Ledger.Ledger.BotBuy: uses the corrected `Ledger.AveragePrice`; the source stores NaN as the purchase price when a zero-share buy meets a zero-share holding (see Findings).
- Chat.ConfirmTradeSteps: uses the corrected `Chat.LimitPrice`; the source moves on to AWAITING_PASSWORD with a NaN price for a reply such as "ok." (see Findings).
- Chat.Assistant.SubmitQuery: answers through the corrected average and limit price, so it does not reproduce the two NaN outcomes above; the same holds for Chat.Assistant.GetBotResponse, Chat.Assistant.Send and Chat.Assistant.SaveEdit.
- Chat.Assistant.Open: the typing flag is local state of the chat page, so mounting the page turns it off; the model does not track unmounting or a rejection surfacing as an unhandled error.
- Routes.Route: matching follows React Router's defaults, ignoring case (ASCII letters only) and trailing slashes; dynamic segments, route ranking and URL decoding are not modelled, since every route is a static path.

## Findings

| source | as written | input that shows it | evidently intended | confidence | as-written member | corrected member |
|---|---|---|---|---|---|---|
| frontend/src/App.js:1236-1250 | The bot buy path does not check the quantity and averages `(p·q + price·n) / (q + n)` | "buy 0 tcs" confirmed twice: the first appends a holding of 0 shares; the second divides 0 by 0 and stores a NaN purchase price | A zero-share buy leaves the holding's price unchanged, or is refused as the card path refuses it | not executed | Ledger.ZeroShareBotBuysReachNaN | Ledger.AveragePrice |
| frontend/src/App.js:1327-1340 | In CONFIRM_TRADE any run of digits and dots is a price and goes through `parseFloat` | The reply "ok." matches "." and `parseFloat(".")` is NaN; the dialogue moves to AWAITING_PASSWORD with a NaN price | A reply that does not parse to a number asks again, as other unrecognised replies do | not executed | Chat.DotReplyGivesNaNPrice | Chat.LimitPrice |
