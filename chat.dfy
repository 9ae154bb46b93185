/** The rule-based trading assistant of the web client (frontend/src/App.js,
    `getBotResponse` with its inner `parseQuery`, and the chat page's `submitQuery`
    and `handleSend`). Every asynchronous answer the assistant waits for (the
    indicator data, a quote, the password check) is a parameter. */
module Chat {
  import opened Wrappers
  import opened Text
  import opened Money
  import L = Ledger
  import Ls = Lists

  datatype TradeType = Buy | Sell

  /** `details` of a trade: `{ type, quantity, ticker }`. */
  datatype TradeDetails = TradeDetails(kind: TradeType, quantity: nat, ticker: string)

  /** The assistant's indicator keyword table. */
  datatype Indicator = Rsi | Macd | BBands

  /** `botContext`: what the assistant is waiting for. */
  datatype BotContext =
    | AwaitingIndicators(ticker: string, period: string)
    | AwaitingGraphConfirmation(ticker: string, period: string, indicators: seq<Indicator>)
    | ConfirmTrade(details: TradeDetails)
    | AwaitingPassword(details: TradeDetails, price: real)

  datatype Intent =
    | InitiateTrade(details: TradeDetails)
    | InitiateAnalysis(ticker: string)
    | GetPrice(ticker: string)
    | Greeting
    | Acknowledgement
    | Unknown

  /** The message a reply shows; the numbers in it are the ones the text formats. */
  datatype ReplyText =
    | NoText
    | NoIndicatorsFound
    | IndicatorFetchFailed(ticker: string)
    | IndicatorValues(ticker: string, indicators: seq<Indicator>)
    | GraphDeclined
    | MarketPriceUnavailable
    | MarketPriceConfirm(price: real)
    | LimitPriceConfirm(quantity: nat, price: real)
    | PriceNotUnderstood
    | TradeConfirmed(details: TradeDetails)
    | TradeNotCompleted
    | PasswordIncorrect
    | Intro
    | Hello
    | Welcome
    | AskIndicators(ticker: string)
    | AskPrice(details: TradeDetails)
    | CurrentPrice(ticker: string, currency: Currency, price: real)
    | LivePriceUnavailable(ticker: string)
    | Help

  datatype Action = NavigateToIndicators(ticker: string, period: string, indicators: seq<Indicator>)

  /** The object `getBotResponse` returns. */
  datatype Reply = Reply(text: ReplyText, context: Option<BotContext>, action: Option<Action>, silent: bool)

  /** The answers of the asynchronous calls made while handling one query. */
  datatype Answers = Answers(
    indicatorData: bool,     // fetchStockData succeeded and returned at least one row
    quote: Option<real>,     // currentPrice of the ticker from /portfolio-data
    verified: bool,          // /verify-password
    rejected: bool)          // the `apiCall` the query awaits, if any, throws

  /** One message of the chat log. A bot message whose id was edited keeps its
      reply but shows `editedText` and is marked edited. */
  datatype Message =
    | UserMessage(id: int, text: string, edited: bool)
    | BotMessage(id: int, reply: Reply, editedText: Option<string>)

  // ---------------------------------------------------------------- normalising

  /** `query.toLowerCase().trim()`. */
  function Normalize(query: string): string {
    JsTrim(ToLower(query))
  }

  predicate IsPunctuation(c: char) {
    c == '.' || c == ',' || c == '?'
  }

  /** `q.replace(/[.,?]/g, '')`. */
  function StripPunctuation(q: string): string {
    if q == [] then []
    else (if IsPunctuation(q[0]) then [] else [q[0]]) + StripPunctuation(q[1..])
  }

  /** What is left is exactly the other characters: no punctuation remains, every
      other character is kept as often as it occurs, and the order is kept. */
  lemma {:induction false} StripRemovesPunctuation(q: string)
    ensures var r := StripPunctuation(q);
            (forall i :: 0 <= i < |r| ==> !IsPunctuation(r[i])) &&
            Ls.IsSubsequence(r, q) &&
            forall c :: !IsPunctuation(c) ==> multiset(r)[c] == multiset(q)[c]
  {
    StripNoPunctuation(q);
    StripIsSubsequence(q);
    forall c | !IsPunctuation(c)
      ensures multiset(StripPunctuation(q))[c] == multiset(q)[c]
    {
      StripCounts(q, c);
    }
  }

  lemma {:induction false} StripNoPunctuation(q: string)
    ensures forall i :: 0 <= i < |StripPunctuation(q)| ==> !IsPunctuation(StripPunctuation(q)[i])
  {
    if q != [] {
      StripNoPunctuation(q[1..]);
    }
  }

  lemma {:induction false} StripIsSubsequence(q: string)
    ensures Ls.IsSubsequence(StripPunctuation(q), q)
  {
    if q != [] {
      StripIsSubsequence(q[1..]);
      var rest := StripPunctuation(q[1..]);
      if IsPunctuation(q[0]) {
        assert StripPunctuation(q) == rest;
        Ls.SkipHead(rest, q);
      } else {
        assert StripPunctuation(q) == [q[0]] + rest;
        assert ([q[0]] + rest)[1..] == rest;
      }
    }
  }

  lemma {:induction false} StripCounts(q: string, c: char)
    requires !IsPunctuation(c)
    ensures multiset(StripPunctuation(q))[c] == multiset(q)[c]
  {
    if q != [] {
      StripCounts(q[1..], c);
      assert q == [q[0]] + q[1..];
      assert multiset(q) == multiset([q[0]]) + multiset(q[1..]);
      var rest := StripPunctuation(q[1..]);
      if !IsPunctuation(q[0]) {
        assert multiset([q[0]] + rest) == multiset([q[0]]) + multiset(rest);
      }
    }
  }

  /** Stripping only removes characters: text without punctuation is left alone. */
  lemma {:induction false} StripKeepsPlainText(q: string)
    requires forall i :: 0 <= i < |q| ==> !IsPunctuation(q[i])
    ensures StripPunctuation(q) == q
  {
    if q != [] {
      StripKeepsPlainText(q[1..]);
    }
  }

  /** `t.split('.')[0].toLowerCase()`: the name part of a ticker. */
  function BaseName(ticker: string): string {
    ToLower(BeforeFirst(ticker, '.'))
  }

  /** `allTickers.find(t => lowerCaseQuery.includes(base(t)))`. */
  function FirstMentioned(tickers: seq<string>, s: string): (r: Option<string>)
    ensures r.Some? ==> exists k :: 0 <= k < |tickers| && tickers[k] == r.value && Contains(s, BaseName(r.value)) &&
                          forall j :: 0 <= j < k ==> !Contains(s, BaseName(tickers[j]))
    ensures r.None? ==> forall k :: 0 <= k < |tickers| ==> !Contains(s, BaseName(tickers[k]))
  {
    if tickers == [] then None
    else if Contains(s, BaseName(tickers[0])) then Some(tickers[0])
    else
      var r := FirstMentioned(tickers[1..], s);
      if r.Some? then
        ghost var k :| 0 <= k < |tickers[1..]| && tickers[1..][k] == r.value && Contains(s, BaseName(r.value)) &&
                      forall j :: 0 <= j < k ==> !Contains(s, BaseName(tickers[1..][j]));
        assert tickers[k + 1] == r.value;
        r
      else r
  }

  /** `allTickers.find(t => base(t) === stockName)`. */
  function FirstNamed(tickers: seq<string>, name: string): (r: Option<string>)
    ensures r.Some? ==> exists k :: 0 <= k < |tickers| && tickers[k] == r.value && BaseName(r.value) == name &&
                          forall j :: 0 <= j < k ==> BaseName(tickers[j]) != name
    ensures r.None? ==> forall k :: 0 <= k < |tickers| ==> BaseName(tickers[k]) != name
  {
    if tickers == [] then None
    else if BaseName(tickers[0]) == name then Some(tickers[0])
    else
      var r := FirstNamed(tickers[1..], name);
      if r.Some? then
        ghost var k :| 0 <= k < |tickers[1..]| && tickers[1..][k] == r.value && BaseName(r.value) == name &&
                      forall j :: 0 <= j < k ==> BaseName(tickers[1..][j]) != name;
        assert tickers[k + 1] == r.value;
        r
      else r
  }

  // ------------------------------------------------ the trade regular expression

  /** End of the greedy run of characters satisfying `p` that starts at `i`. */
  function RunEnd(s: string, i: nat, p: char -> bool): (j: nat)
    requires i <= |s|
    ensures i <= j <= |s|
    ensures forall k :: i <= k < j ==> p(s[k])
    ensures j < |s| ==> !p(s[j])
    decreases |s| - i
  {
    if i < |s| && p(s[i]) then RunEnd(s, i + 1, p) else i
  }

  /** The greedy run is the only one that covers `p` characters and stops at one
      that fails `p` or at the end. */
  lemma {:induction false} RunEndIs(s: string, i: nat, p: char -> bool, j: nat)
    requires i <= j <= |s|
    requires forall k :: i <= k < j ==> p(s[k])
    requires j < |s| ==> !p(s[j])
    ensures RunEnd(s, i, p) == j
    decreases j - i
  {
    if i < j {
      RunEndIs(s, i + 1, p, j);
    }
  }

  predicate NotLineTerminator(c: char) {
    !IsLineTerminator(c)
  }

  /** Groups 1, 2 and 5 of a match of `/^(buy|sell)\s*(\d+)\s*(share|shares)?\s*(of)?\s*(.*)/`. */
  datatype TradeMatch = TradeMatch(kind: TradeType, digits: string, rest: string)

  /** The trade regular expression as JavaScript runs it. Everything after the digits
      is optional, so the first choice of each greedy part is the match: the spaces
      and digits are taken greedily, the alternation tries "share" before "shares",
      and `.*` stops at the first line terminator. */
  function MatchTrade(s: string): (m: Option<TradeMatch>)
    ensures m.Some? ==> |m.value.digits| > 0 && forall i :: 0 <= i < |m.value.digits| ==> IsDigit(m.value.digits[i])
  {
    var verb := if StartsWith(s, "buy") then Some((Buy, 3)) else if StartsWith(s, "sell") then Some((Sell, 4)) else None;
    if verb.None? then None
    else
      var a := RunEnd(s, verb.value.1, IsJsSpace);
      var b := RunEnd(s, a, IsDigit);
      if a == b then None
      else Some(TradeMatch(verb.value.0, s[a..b], TradeRest(s, b)))
  }

  /** Group 5 of the trade expression once the digits end at `b`: optional spaces,
      "share" when present, spaces, "of" when present, spaces, then the text up to
      the first line terminator. */
  function TradeRest(s: string, b: nat): string
    requires b <= |s|
  {
    var c := RunEnd(s, b, IsJsSpace);
    var d := if StartsWith(s[c..], "share") then c + 5 else c;
    var e := RunEnd(s, d, IsJsSpace);
    var f := if StartsWith(s[e..], "of") then e + 2 else e;
    var g := RunEnd(s, f, IsJsSpace);
    s[g..RunEnd(s, g, NotLineTerminator)]
  }

  /** The trade `parseQuery` recognises in the stripped query `s`, if any: the
      expression must match and its name part must be some ticker's base name. */
  function ParseTrade(s: string, tickers: seq<string>): (r: Option<TradeDetails>)
    ensures r.Some? ==> MatchTrade(s).Some? && r.value.ticker in tickers &&
                        BaseName(r.value.ticker) == JsTrim(MatchTrade(s).value.rest)
  {
    var trade := MatchTrade(s);
    if trade.None? then None
    else
      var ticker := FirstNamed(tickers, JsTrim(trade.value.rest));
      if ticker.None? then None
      else Some(TradeDetails(trade.value.kind, DigitsValue(trade.value.digits), ticker.value))
  }

  /** Neither a trade nor an analysis or price request naming a listed ticker: the
      query falls through to the small-talk tests. */
  predicate NoEarlierIntent(s: string, tickers: seq<string>) {
    ParseTrade(s, tickers).None? && !((AsksAnalysis(s) || AsksPrice(s)) && FirstMentioned(tickers, s).Some?)
  }

  /** `parseQuery` applied to the lower-cased, trimmed query `q`. A trade is
      started exactly when the query without punctuation reads as one; an
      analysis or a price request names the first listed ticker whose base name
      the query mentions; the greeting, the acknowledgement and help follow, in
      that order, when nothing earlier applies. */
  function ParseQuery(q: string, tickers: seq<string>): (r: Intent)
    ensures r.InitiateTrade? <==> ParseTrade(StripPunctuation(q), tickers).Some?
    ensures r.InitiateTrade? ==> r.details.ticker in tickers
    ensures r.InitiateAnalysis? ==> AsksAnalysis(StripPunctuation(q))
    ensures r.GetPrice? ==> AsksPrice(StripPunctuation(q)) && !AsksAnalysis(StripPunctuation(q))
    ensures (r.InitiateAnalysis? || r.GetPrice?) ==> r.ticker in tickers && Contains(StripPunctuation(q), BaseName(r.ticker))
    ensures (r.InitiateAnalysis? || r.GetPrice?) ==> FirstMentioned(tickers, StripPunctuation(q)) == Some(r.ticker)
    ensures r.InitiateAnalysis? <==>
              ParseTrade(StripPunctuation(q), tickers).None? && AsksAnalysis(StripPunctuation(q)) &&
              FirstMentioned(tickers, StripPunctuation(q)).Some?
    ensures r.GetPrice? <==>
              ParseTrade(StripPunctuation(q), tickers).None? && !AsksAnalysis(StripPunctuation(q)) && AsksPrice(StripPunctuation(q)) &&
              FirstMentioned(tickers, StripPunctuation(q)).Some?
    ensures r == Greeting <==> NoEarlierIntent(StripPunctuation(q), tickers) && IsGreeting(StripPunctuation(q))
    ensures r == Acknowledgement <==>
              NoEarlierIntent(StripPunctuation(q), tickers) && !IsGreeting(StripPunctuation(q)) && IsAcknowledgement(StripPunctuation(q))
    ensures r == Unknown <==>
              NoEarlierIntent(StripPunctuation(q), tickers) && !IsGreeting(StripPunctuation(q)) && !IsAcknowledgement(StripPunctuation(q))
    ensures r == Unknown ==> !IsGreeting(StripPunctuation(q)) && !IsAcknowledgement(StripPunctuation(q))
  {
    var s := StripPunctuation(q);
    var trade := ParseTrade(s, tickers);
    var mentioned := FirstMentioned(tickers, s);
    if trade.Some? then InitiateTrade(trade.value)
    else if AsksAnalysis(s) && mentioned.Some? then
      InitiateAnalysis(mentioned.value)
    else if AsksPrice(s) && mentioned.Some? then
      GetPrice(mentioned.value)
    else if IsGreeting(s) then Greeting
    else if IsAcknowledgement(s) then Acknowledgement
    else Unknown
  }

  predicate IsGreeting(s: string) {
    s in ["hi", "hello", "hey", "hi da"]
  }

  predicate IsAcknowledgement(s: string) {
    s in ["thanks", "thank you", "ok", "cool", "got it", "super", "awesome", "great"]
  }

  /** Prefixes that ask for an analysis or a price. */
  predicate AsksAnalysis(s: string) {
    StartsWith(s, "analyze ") || StartsWith(s, "analyse ")
  }

  predicate AsksPrice(s: string) {
    StartsWith(s, "price of ") || StartsWith(s, "what is the price of ")
  }

  // ------------------------------------------------------------- limit prices

  predicate IsPriceChar(c: char) {
    IsDigit(c) || c == '.'
  }

  /** `q.match(/at\s*([0-9.]+)/)` searched from position `i` on. */
  function AtPriceFrom(q: string, i: nat): (r: Option<string>)
    requires i <= |q|
    ensures r.Some? ==> r.value != [] && forall k :: 0 <= k < |r.value| ==> IsPriceChar(r.value[k])
    decreases |q| - i
  {
    if i + 2 > |q| then None
    else
      var a := RunEnd(q, i + 2, IsJsSpace);
      if q[i..i + 2] == "at" && a < |q| && IsPriceChar(q[a]) then Some(q[a..RunEnd(q, a, IsPriceChar)])
      else AtPriceFrom(q, i + 1)
  }

  /** `q.match(/([0-9.]+)/)` searched from position `i` on. */
  function PriceRunFrom(q: string, i: nat): (r: Option<string>)
    requires i <= |q|
    ensures r.Some? ==> r.value != [] && forall k :: 0 <= k < |r.value| ==> IsPriceChar(r.value[k])
    decreases |q| - i
  {
    if i == |q| then None
    else if IsPriceChar(q[i]) then Some(q[i..RunEnd(q, i, IsPriceChar)])
    else PriceRunFrom(q, i + 1)
  }

  /** `priceMatch`: the captured run of digits and dots, preferring one after "at". */
  function PriceMatch(q: string): (r: Option<string>)
    ensures r.Some? ==> r.value != [] && forall k :: 0 <= k < |r.value| ==> IsPriceChar(r.value[k])
  {
    var at := AtPriceFrom(q, 0);
    if at.Some? then at else PriceRunFrom(q, 0)
  }

  function Pow10(n: nat): (r: real)
    ensures r >= 1.0
  {
    if n == 0 then 1.0 else 10.0 * Pow10(n - 1)
  }

  /** `parseFloat` of a run of digits and dots: the longest prefix of the form
      digits [ "." digits ] with at least one digit; `None` is NaN. */
  function ParseFloat(run: string): (r: Option<real>)
    requires forall k :: 0 <= k < |run| ==> IsPriceChar(run[k])
    ensures r.Some? ==> r.value >= 0.0
  {
    var n1 := RunEnd(run, 0, IsDigit);
    var whole := DigitsValue(run[..n1]) as real;
    if n1 < |run| && run[n1] == '.' then
      var n2 := RunEnd(run, n1 + 1, IsDigit);
      if n1 == 0 && n2 == n1 + 1 then None
      else Some(whole + DigitsValue(run[n1 + 1..n2]) as real / Pow10(n2 - n1 - 1))
    else if n1 == 0 then None
    else Some(whole)
  }

  /** `parseFloat` of such a run is NaN exactly when the run is empty or is a dot
      not followed by a digit. */
  lemma ParseFloatNaN(run: string)
    requires forall k :: 0 <= k < |run| ==> IsPriceChar(run[k])
    ensures ParseFloat(run).None? <==> run == [] || (run[0] == '.' && (|run| == 1 || !IsDigit(run[1])))
  {
    var n1 := RunEnd(run, 0, IsDigit);
    if run != [] && !IsDigit(run[0]) {
      assert n1 == 0 && run[0] == '.';
      if |run| > 1 && IsDigit(run[1]) {
        assert RunEnd(run, 1, IsDigit) > 1;
      }
    }
  }

  /** The limit price as App.js reads it: the outer `None` is "no number in the
      reply", an inner `None` is the NaN that `parseFloat` returns for a lone ".". */
  function LimitPriceAsWritten(q: string): Option<Option<real>> {
    var m := PriceMatch(q);
    if m.Some? then Some(ParseFloat(m.value)) else None
  }

  /** The limit price the rest of the model uses: a reply counts as a price only
      when `parseFloat` gives a number. */
  function LimitPrice(q: string): (r: Option<real>)
    ensures r.Some? <==> LimitPriceAsWritten(q).Some? && LimitPriceAsWritten(q).value.Some?
    ensures r.Some? ==> r.value >= 0.0
  {
    var m := PriceMatch(q);
    if m.Some? then ParseFloat(m.value) else None
  }

  /** Finding: in CONFIRM_TRADE a reply such as "ok." matches `[0-9.]+` on its dot;
      `parseFloat(".")` is NaN and App.js moves on to AWAITING_PASSWORD with a NaN
      price, which the trade handlers would then turn into NaN funds. */
  lemma DotReplyGivesNaNPrice()
    ensures LimitPriceAsWritten("ok.") == Some(None)
    ensures LimitPrice("ok.") == None
  {
    var q := "ok.";
    assert q[1..3] == "k." && q[0..2] == "ok";
    assert AtPriceFrom(q, 1) == None;
    assert AtPriceFrom(q, 0) == None;
    assert RunEnd(q, 2, IsPriceChar) == 3 by { RunEndIs(q, 2, IsPriceChar, 3); }
    assert q[2..3] == ".";
    assert PriceRunFrom(q, 2) == Some(".");
    assert PriceRunFrom(q, 0) == Some(".");
  }

  // ----------------------------------------------------------- the dialogue

  /** The indicators a reply asks for; "all" selects the whole table. */
  function RequestedIndicators(q: string): (r: seq<Indicator>)
    ensures Contains(q, "all") ==> r == [Rsi, Macd, BBands]
    ensures forall x :: x in r ==> x in [Rsi, Macd, BBands]
  {
    if Contains(q, "all") then [Rsi, Macd, BBands]
    else
      (if Contains(q, "rsi") then [Rsi] else [])
      + (if Contains(q, "macd") then [Macd] else [])
      + (if Contains(q, "bollinger") || Contains(q, "bbands") then [BBands] else [])
  }

  predicate AsksMarketPrice(q: string) {
    Contains(q, "market") || Contains(q, "now") || Contains(q, "current")
  }

  /** A quote counts only when it is truthy: present and non-zero. */
  predicate Truthy(x: Option<real>) {
    x.Some? && x.value != 0.0
  }

  function Say(text: ReplyText): Reply {
    Reply(text, None, None, false)
  }

  function SayAndWait(text: ReplyText, context: BotContext): Reply {
    Reply(text, Some(context), None, false)
  }

  /** `getBotResponse(query)` in context `ctx`. `tradeOk` is what the BUY or SELL
      handler returned; it is read only after a verified password. */
  function Respond(ctx: Option<BotContext>, query: string, tickers: seq<string>, answers: Answers, tradeOk: bool): Reply {
    var q := Normalize(query);
    match ctx
    case Some(AwaitingIndicators(ticker, period)) => IndicatorsReply(ticker, period, q, answers.indicatorData)
    case Some(AwaitingGraphConfirmation(ticker, period, indicators)) => GraphReply(ticker, period, indicators, q)
    case Some(ConfirmTrade(details)) => PriceReply(details, q, answers.quote)
    case Some(AwaitingPassword(details, price)) => PasswordReply(details, answers.verified, tradeOk)
    case None => FreshReply(ParseQuery(q, tickers), answers.quote)
  }

  /** AWAITING_INDICATORS: no known indicator keeps waiting; a failed fetch ends the
      dialogue; otherwise the values are shown and a graph is offered. */
  function IndicatorsReply(ticker: string, period: string, q: string, fetched: bool): Reply {
    var requested := RequestedIndicators(q);
    if requested == [] then SayAndWait(NoIndicatorsFound, AwaitingIndicators(ticker, period))
    else if !fetched then Say(IndicatorFetchFailed(ticker))
    else SayAndWait(IndicatorValues(ticker, requested), AwaitingGraphConfirmation(ticker, period, requested))
  }

  /** AWAITING_GRAPH_CONFIRMATION: an exact yes navigates silently to the indicator page. */
  function GraphReply(ticker: string, period: string, indicators: seq<Indicator>, q: string): Reply {
    if q in ["yes", "yep", "sure", "ok", "please do", "y"] then
      Reply(NoText, None, Some(NavigateToIndicators(ticker, period, indicators)), true)
    else Say(GraphDeclined)
  }

  /** CONFIRM_TRADE: the market-price words take precedence over a number. */
  function PriceReply(details: TradeDetails, q: string, quote: Option<real>): Reply {
    if AsksMarketPrice(q) then
      if !Truthy(quote) then Say(MarketPriceUnavailable)
      else SayAndWait(MarketPriceConfirm(quote.value), AwaitingPassword(details, quote.value))
    else if LimitPrice(q).Some? then
      SayAndWait(LimitPriceConfirm(details.quantity, LimitPrice(q).value), AwaitingPassword(details, LimitPrice(q).value))
    else SayAndWait(PriceNotUnderstood, ConfirmTrade(details))
  }

  /** AWAITING_PASSWORD: the outcome of the check and of the trade handler. */
  function PasswordReply(details: TradeDetails, verified: bool, tradeOk: bool): Reply {
    if !verified then Say(PasswordIncorrect)
    else if tradeOk then Say(TradeConfirmed(details))
    else Say(TradeNotCompleted)
  }

  /** No context: the reply to the parsed intent. */
  function FreshReply(intent: Intent, quote: Option<real>): Reply {
    match intent
    case Greeting => Say(Hello)
    case Acknowledgement => Say(Welcome)
    case InitiateAnalysis(ticker) => SayAndWait(AskIndicators(ticker), AwaitingIndicators(ticker, "1M"))
    case InitiateTrade(details) => SayAndWait(AskPrice(details), ConfirmTrade(details))
    case GetPrice(ticker) =>
      if Truthy(quote) then Say(CurrentPrice(ticker, CurrencyOf(ticker), quote.value))
      else Say(LivePriceUnavailable(ticker))
    case Unknown => Say(Help)
  }


  /** With no context: an analysis request waits for indicators over one month, a
      price request shows the quote when one came back, and every intent other
      than a trade or an analysis ends with no context. */
  lemma FreshSteps(query: string, tickers: seq<string>, answers: Answers, tradeOk: bool)
    ensures var i := ParseQuery(Normalize(query), tickers);
            var r := Respond(None, query, tickers, answers, tradeOk);
            (i.InitiateAnalysis? ==> r.context == Some(AwaitingIndicators(i.ticker, "1M"))) &&
            (!i.InitiateAnalysis? && !i.InitiateTrade? ==> r.context.None?) &&
            (i.GetPrice? ==> (r.text.CurrentPrice? <==> Truthy(answers.quote))) &&
            (i.GetPrice? && Truthy(answers.quote) ==> r.text == CurrentPrice(i.ticker, CurrencyOf(i.ticker), answers.quote.value)) &&
            (i == Unknown <==> r.text == Help)
  {
  }

  /** AWAITING_INDICATORS: a reply naming no known indicator keeps waiting; with
      indicators named, a failed fetch ends the dialogue and a successful one
      offers the graph of exactly those indicators. */
  lemma IndicatorSteps(ticker: string, period: string, query: string, tickers: seq<string>, answers: Answers, tradeOk: bool)
    ensures var requested := RequestedIndicators(Normalize(query));
            var r := Respond(Some(AwaitingIndicators(ticker, period)), query, tickers, answers, tradeOk);
            (requested == [] ==> r.context == Some(AwaitingIndicators(ticker, period))) &&
            (requested != [] && !answers.indicatorData ==> r.context.None? && r.text == IndicatorFetchFailed(ticker)) &&
            (requested != [] && answers.indicatorData ==> r.context == Some(AwaitingGraphConfirmation(ticker, period, requested)))
  {
  }

  /** AWAITING_GRAPH_CONFIRMATION always ends the dialogue; exactly a yes-word
      navigates, silently, to the indicator page with the chosen indicators. */
  lemma GraphSteps(ticker: string, period: string, indicators: seq<Indicator>, query: string, tickers: seq<string>, answers: Answers, tradeOk: bool)
    ensures var r := Respond(Some(AwaitingGraphConfirmation(ticker, period, indicators)), query, tickers, answers, tradeOk);
            r.context.None? &&
            (r.action.Some? <==> Normalize(query) in ["yes", "yep", "sure", "ok", "please do", "y"]) &&
            (r.action.Some? ==> r.action.value == NavigateToIndicators(ticker, period, indicators) && r.silent) &&
            (r.action.None? ==> r.text == GraphDeclined && !r.silent)
  {
  }

  /** A parsed trade asks for a price and waits in CONFIRM_TRADE. */
  lemma ParsedTradeAwaitsPrice(query: string, tickers: seq<string>, answers: Answers, tradeOk: bool)
    requires ParseQuery(Normalize(query), tickers).InitiateTrade?
    ensures Respond(None, query, tickers, answers, tradeOk).context
            == Some(ConfirmTrade(ParseQuery(Normalize(query), tickers).details))
  {
  }

  /** In CONFIRM_TRADE: a market-price reply with a quote, or a reply holding a number,
      moves to AWAITING_PASSWORD with that price filled in; a market-price reply
      without a quote ends the dialogue; anything else keeps CONFIRM_TRADE. */
  lemma ConfirmTradeSteps(d: TradeDetails, query: string, tickers: seq<string>, answers: Answers, tradeOk: bool)
    ensures var q := Normalize(query);
            var r := Respond(Some(ConfirmTrade(d)), query, tickers, answers, tradeOk);
            (AsksMarketPrice(q) && Truthy(answers.quote) ==> r.context == Some(AwaitingPassword(d, answers.quote.value))) &&
            (AsksMarketPrice(q) && !Truthy(answers.quote) ==> r.context == None) &&
            (!AsksMarketPrice(q) && LimitPrice(q).Some? ==> r.context == Some(AwaitingPassword(d, LimitPrice(q).value))) &&
            (!AsksMarketPrice(q) && LimitPrice(q).None? ==> r.context == Some(ConfirmTrade(d)))
  {
    assert Respond(Some(ConfirmTrade(d)), query, tickers, answers, tradeOk) == PriceReply(d, Normalize(query), answers.quote);
  }

  /** The password step: when the check throws, nothing is answered and the dialogue
      and the ledger stay as they were; otherwise the dialogue ends, only a verified
      password touches the ledger, and the trade is reported as done exactly when the
      password was verified and the handler accepted it. */
  lemma PasswordStepEndsDialogue(d: TradeDetails, price: real, query: string, tickers: seq<string>, answers: Answers,
                                 p: seq<L.Holding>, funds: real, rate: real, id: int)
    ensures var (r, p2, funds2) := Answer(Some(AwaitingPassword(d, price)), query, tickers, answers, p, funds, rate, id);
            (answers.rejected ==> r == None && p2 == p && funds2 == funds) &&
            (!answers.rejected ==>
               r.Some? && r.value.context == None &&
               (r.value.text == TradeConfirmed(d) <==> answers.verified && BotTrade(p, funds, rate, d, price, id).0) &&
               (!answers.verified ==> p2 == p && funds2 == funds))
  {
  }

  const SharesQuery := "buy 10 shares of tcs"

  /** "buy 10 shares of tcs": the alternation takes "share", so the name left for
      the ticker lookup is "s of tcs". */
  lemma SharesPhrasingLeavesName()
    ensures MatchTrade(SharesQuery) == Some(TradeMatch(Buy, "10", "s of tcs"))
  {
    SharesVerbAndDigits();
    SharesRest();
  }

  lemma SharesVerbAndDigits()
    ensures StartsWith(SharesQuery, "buy") && SharesQuery[4..6] == "10"
    ensures RunEnd(SharesQuery, 3, IsJsSpace) == 4 && RunEnd(SharesQuery, 4, IsDigit) == 6
  {
    SharesVerb();
    RunEndIs(SharesQuery, 4, IsDigit, 6);
  }

  lemma SharesVerb()
    ensures StartsWith(SharesQuery, "buy") && RunEnd(SharesQuery, 3, IsJsSpace) == 4
  {
    RunEndIs(SharesQuery, 3, IsJsSpace, 4);
  }


  lemma SharesRest()
    ensures TradeRest(SharesQuery, 6) == "s of tcs"
  {
    SharesWord();
    SharesName();
  }

  lemma SharesWord()
    ensures RunEnd(SharesQuery, 6, IsJsSpace) == 7 && StartsWith(SharesQuery[7..], "share")
  {
    RunEndIs(SharesQuery, 6, IsJsSpace, 7);
  }

  lemma SharesName()
    ensures RunEnd(SharesQuery, 12, IsJsSpace) == 12 && !StartsWith(SharesQuery[12..], "of")
    ensures RunEnd(SharesQuery, 12, NotLineTerminator) == 20 && SharesQuery[12..20] == "s of tcs"
  {
    SharesNameStart();
    RunEndIs(SharesQuery, 12, NotLineTerminator, 20);
  }

  lemma SharesNameStart()
    ensures RunEnd(SharesQuery, 12, IsJsSpace) == 12 && !StartsWith(SharesQuery[12..], "of")
  {
    RunEndIs(SharesQuery, 12, IsJsSpace, 12);
  }


  const TcsQuery := "buy 10 tcs"

  /** "buy 10 tcs", with TCS.NS first in the ticker list, starts a trade for ten
      shares of TCS.NS. */
  lemma BuyTenTcs(tickers: seq<string>)
    requires |tickers| > 0 && tickers[0] == "TCS.NS"
    ensures ParseQuery(TcsQuery, tickers) == InitiateTrade(TradeDetails(Buy, 10, "TCS.NS"))
  {
    TcsMatches();
    TcsListed(tickers);
    TcsPlain();
    ListedNameIsTrade(TcsQuery, tickers);
  }

  /** A query without punctuation whose name part is a listed base name is a trade
      for the first such ticker, with the matched verb and quantity. */
  lemma ListedNameIsTrade(q: string, tickers: seq<string>)
    requires StripPunctuation(q) == q
    requires MatchTrade(q).Some? && FirstNamed(tickers, JsTrim(MatchTrade(q).value.rest)).Some?
    ensures var m := MatchTrade(q).value;
            ParseQuery(q, tickers)
            == InitiateTrade(TradeDetails(m.kind, DigitsValue(m.digits), FirstNamed(tickers, JsTrim(m.rest)).value))
  {
    var m := MatchTrade(q).value;
    var trade := TradeDetails(m.kind, DigitsValue(m.digits), FirstNamed(tickers, JsTrim(m.rest)).value);
    assert ParseTrade(q, tickers) == Some(trade);
  }

  lemma TcsMatches()
    ensures MatchTrade(TcsQuery) == Some(TradeMatch(Buy, "10", "tcs")) && DigitsValue("10") == 10
  {
    TcsVerbAndDigits();
    TcsRest();
    assert DigitsValue("10") == DigitsValue("1") * 10;
  }

  lemma TcsListed(tickers: seq<string>)
    requires |tickers| > 0 && tickers[0] == "TCS.NS"
    ensures FirstNamed(tickers, JsTrim("tcs")) == Some("TCS.NS")
  {
    TcsBaseName();
    TrimmedTcs();
    assert BaseName(tickers[0]) == JsTrim("tcs");
  }

  lemma TrimmedTcs()
    ensures JsTrim("tcs") == "tcs"
  {
    JsTrimKeeps("tcs");
  }

  lemma TcsPlain()
    ensures StripPunctuation(TcsQuery) == TcsQuery
  {
    StripKeepsPlainText(TcsQuery);
  }

  lemma TcsVerbAndDigits()
    ensures StartsWith(TcsQuery, "buy") && TcsQuery[4..6] == "10"
    ensures RunEnd(TcsQuery, 3, IsJsSpace) == 4 && RunEnd(TcsQuery, 4, IsDigit) == 6
  {
    RunEndIs(TcsQuery, 3, IsJsSpace, 4);
    RunEndIs(TcsQuery, 4, IsDigit, 6);
  }

  lemma TcsRest()
    ensures TradeRest(TcsQuery, 6) == "tcs"
  {
    TcsNoWords();
    TcsName();
  }

  lemma TcsNoWords()
    ensures RunEnd(TcsQuery, 6, IsJsSpace) == 7 && TcsQuery[7..] == "tcs"
    ensures !StartsWith(TcsQuery[7..], "share") && !StartsWith(TcsQuery[7..], "of")
  {
    RunEndIs(TcsQuery, 6, IsJsSpace, 7);
  }

  lemma TcsName()
    ensures RunEnd(TcsQuery, 7, IsJsSpace) == 7 && RunEnd(TcsQuery, 7, NotLineTerminator) == 10
    ensures TcsQuery[7..10] == "tcs"
  {
    RunEndIs(TcsQuery, 7, IsJsSpace, 7);
    RunEndIs(TcsQuery, 7, NotLineTerminator, 10);
  }


  lemma TcsBaseName()
    ensures BaseName("TCS.NS") == "tcs"
  {
    assert BeforeFirst("S.NS", '.') == "S";
    assert BeforeFirst("CS.NS", '.') == "CS";
    assert BeforeFirst("TCS.NS", '.') == "TCS";
  }

  /** "buy 10 shares of tcs" does not start a trade: unless some listed ticker is
      literally named "s of tcs", the assistant answers with its help text. */
  lemma SharesPhrasingIsUnknown(tickers: seq<string>)
    requires forall k :: 0 <= k < |tickers| ==> BaseName(tickers[k]) != "s of tcs"
    ensures ParseQuery(SharesQuery, tickers) == Unknown
  {
    SharesMatchesNothing(tickers);
    NothingMatchesIsUnknown(SharesQuery, tickers);
  }

  lemma SharesMatchesNothing(tickers: seq<string>)
    requires forall k :: 0 <= k < |tickers| ==> BaseName(tickers[k]) != "s of tcs"
    ensures StripPunctuation(SharesQuery) == SharesQuery && ParseTrade(SharesQuery, tickers).None?
    ensures !AsksAnalysis(SharesQuery) && !AsksPrice(SharesQuery) && !IsGreeting(SharesQuery) && !IsAcknowledgement(SharesQuery)
  {
    SharesIsNoTrade(tickers);
    SharesNoPrefix();
    SharesNotSmallTalk();
    SharesPlain();
  }

  lemma SharesIsNoTrade(tickers: seq<string>)
    requires forall k :: 0 <= k < |tickers| ==> BaseName(tickers[k]) != "s of tcs"
    ensures ParseTrade(SharesQuery, tickers) == None
  {
    SharesNameFacts();
    NamedNoTrade(SharesQuery, tickers, "s of tcs");
  }

  lemma SharesNameFacts()
    ensures MatchTrade(SharesQuery).Some? && JsTrim(MatchTrade(SharesQuery).value.rest) == "s of tcs"
  {
    SharesPhrasingLeavesName();
    TrimmedName();
  }

  /** A trade whose trimmed name part is `name`, a base name no ticker has, is no trade. */
  lemma NamedNoTrade(s: string, tickers: seq<string>, name: string)
    requires MatchTrade(s).Some? && JsTrim(MatchTrade(s).value.rest) == name
    requires forall k :: 0 <= k < |tickers| ==> BaseName(tickers[k]) != name
    ensures ParseTrade(s, tickers) == None
  {
    UnlistedNameIsNoTrade(s, tickers);
  }

  /** A trade needs its name part to be listed. */
  lemma UnlistedNameIsNoTrade(s: string, tickers: seq<string>)
    requires MatchTrade(s).Some?
    requires forall k :: 0 <= k < |tickers| ==> BaseName(tickers[k]) != JsTrim(MatchTrade(s).value.rest)
    ensures ParseTrade(s, tickers) == None
  {
  }

  /** A query without punctuation that is no trade, has neither prefix and is no
      small talk is UNKNOWN. */
  lemma NothingMatchesIsUnknown(q: string, tickers: seq<string>)
    requires StripPunctuation(q) == q
    requires ParseTrade(q, tickers).None? && !AsksAnalysis(q) && !AsksPrice(q) && !IsGreeting(q) && !IsAcknowledgement(q)
    ensures ParseQuery(q, tickers) == Unknown
  {
  }

  lemma SharesPlain()
    ensures StripPunctuation(SharesQuery) == SharesQuery
  {
    StripKeepsPlainText(SharesQuery);
  }

  lemma SharesNoPrefix()
    ensures !AsksAnalysis(SharesQuery) && !AsksPrice(SharesQuery)
  {
    assert SharesQuery[..8] == "buy 10 s" && SharesQuery[..9] == "buy 10 sh";
    assert SharesQuery[..8][0] == 'b' && SharesQuery[..9][0] == 'b';
  }

  lemma SharesNotSmallTalk()
    ensures !IsGreeting(SharesQuery) && !IsAcknowledgement(SharesQuery)
  {
  }


  lemma TrimmedName()
    ensures JsTrim("s of tcs") == "s of tcs"
  {
    JsTrimKeeps("s of tcs");
  }


  // ------------------------------------------------------ trades from the chat

  /** `handleBuyFromBot` / `handleSellFromBot` on holdings `p` and funds `funds`:
      whether the trade is accepted, and the holdings and funds afterwards. */
  function BotTrade(p: seq<L.Holding>, funds: real, rate: real, d: TradeDetails, price: real, id: int): (bool, seq<L.Holding>, real) {
    var value := InrValue(d.ticker, price, d.quantity as real, rate);
    match d.kind
    case Buy =>
      if value <= funds then (true, L.Bought(p, d.ticker, d.quantity as real, price, id), funds - value)
      else (false, p, funds)
    case Sell =>
      var k := L.IndexOf(p, d.ticker);
      if k.Some? && p[k.value].quantity >= d.quantity as real then (true, L.Sold(p, d.ticker, d.quantity as real), funds + value)
      else (false, p, funds)
  }

  /** A refused trade changes nothing; an accepted one keeps each ticker held once and
      leaves no holding negative, and an accepted buy never overdraws the funds. */
  lemma BotTradeKeepsLedgerValid(p: seq<L.Holding>, funds: real, rate: real, d: TradeDetails, price: real, id: int)
    requires L.UniqueTickers(p) && L.NonNegative(p)
    ensures var (ok, p2, funds2) := BotTrade(p, funds, rate, d, price, id);
            L.UniqueTickers(p2) && L.NonNegative(p2) &&
            (!ok ==> p2 == p && funds2 == funds) &&
            (ok && d.kind == Buy && funds >= 0.0 ==> funds2 >= 0.0)
  {
    var q := d.quantity as real;
    L.BuySellKeepUnique(p, d.ticker, q, price, id);
    match L.IndexOf(p, d.ticker)
    case None =>
      L.BuyNew(p, d.ticker, q, price, id);
    case Some(k) =>
      L.BuyHeld(p, k, q, price, id);
      if p[k].quantity >= q {
        if q == p[k].quantity {
          L.SellWhole(p, k);
        } else {
          L.SellPart(p, k, q);
        }
      }
  }

  /** Whether answering `q` in `ctx` awaits an `apiCall`, which throws on a transport
      or HTTP error: the quote for a market-price reply or a price question, and the
      password check. The indicator fetch catches its own errors. */
  predicate CallsApi(ctx: Option<BotContext>, q: string, tickers: seq<string>) {
    match ctx
    case Some(ConfirmTrade(_)) => AsksMarketPrice(q)
    case Some(AwaitingPassword(_, _)) => true
    case Some(_) => false
    case None => ParseQuery(q, tickers).GetPrice?
  }

  /** `getBotResponse` rejects: the call it awaits throws, and nothing after it runs. */
  predicate Rejected(ctx: Option<BotContext>, query: string, tickers: seq<string>, answers: Answers) {
    answers.rejected && CallsApi(ctx, Normalize(query), tickers)
  }

  /** What the ledger does while a query is answered in context `ctx`: only a verified
      password in AWAITING_PASSWORD runs a trade. */
  function Handled(ctx: Option<BotContext>, answers: Answers, p: seq<L.Holding>, funds: real, rate: real, id: int): (bool, seq<L.Holding>, real) {
    if ctx.Some? && ctx.value.AwaitingPassword? && !answers.rejected && answers.verified then
      BotTrade(p, funds, rate, ctx.value.details, ctx.value.price, id)
    else (false, p, funds)
  }

  /** `getBotResponse` with its effect on the ledger: the reply (`None` when the
      promise rejects), then the holdings and funds afterwards. */
  function Answer(ctx: Option<BotContext>, query: string, tickers: seq<string>, answers: Answers,
                  p: seq<L.Holding>, funds: real, rate: real, id: int): (Option<Reply>, seq<L.Holding>, real) {
    if Rejected(ctx, query, tickers, answers) then (None, p, funds)
    else
      var (ok, p2, funds2) := Handled(ctx, answers, p, funds, rate, id);
      (Some(Respond(ctx, query, tickers, answers, ok)), p2, funds2)
  }

  /** Only an awaited call can reject: the quote lookup of a price request or of a
      market-price reply, or the password check. A rejected answer gives no reply
      and leaves the ledger as it was; the indicator steps never reject. */
  lemma RejectionSteps(ctx: Option<BotContext>, query: string, tickers: seq<string>, answers: Answers,
                       p: seq<L.Holding>, funds: real, rate: real, id: int)
    ensures var a := Answer(ctx, query, tickers, answers, p, funds, rate, id);
            (a.0.None? <==> answers.rejected && CallsApi(ctx, Normalize(query), tickers)) &&
            (a.0.None? ==> a.1 == p && a.2 == funds) &&
            (ctx.Some? && (ctx.value.AwaitingIndicators? || ctx.value.AwaitingGraphConfirmation?) ==> a.0.Some?) &&
            (ctx.None? && a.0.None? ==> ParseQuery(Normalize(query), tickers).GetPrice?)
  {
  }

  /** The bot message `submitQuery` logs for an answer: none for a silent reply or a
      rejected promise. */
  function BotLog(reply: Option<Reply>, botId: int): seq<Message> {
    if reply.Some? && !reply.value.silent then [BotMessage(botId, reply.value, None)] else []
  }

  /** The context after an answer: the reply's own, or the old one when it rejected. */
  function ContextAfter(reply: Option<Reply>, ctx: Option<BotContext>): Option<BotContext> {
    if reply.Some? then reply.value.context else ctx
  }

  /** The indicator-page configuration after an answer. */
  function PageAfter(reply: Option<Reply>, page: Option<Action>): Option<Action> {
    if reply.Some? && reply.value.action.Some? then reply.value.action else page
  }

  /** The chat page: its message log, the dialogue context, the page's "bot is
      typing" flag and the shared ledger. */
  class Assistant {
    const ledger: L.Ledger
    const tickers: seq<string>
    var context: Option<BotContext>
    var messages: seq<Message>
    var indicatorPage: Option<Action>
    var typing: bool

    ghost predicate Valid()
      reads this, ledger
    {
      ledger.Valid()
    }

    constructor (ledger: L.Ledger, tickers: seq<string>)
      ensures this.ledger == ledger && this.tickers == tickers
      ensures context == None && messages == [] && indicatorPage == None && !typing
    {
      this.ledger := ledger;
      this.tickers := tickers;
      context := None;
      messages := [];
      indicatorPage := None;
      typing := false;
    }

    /** Opening the page mounts it with the typing flag off; an empty log greets a
        signed-in user with the introduction, while a guest sees the sign-in prompt
        instead and the log stays as it is. */
    method Open(practice: bool, id: int)
      modifies this`messages, this`typing
      ensures !typing
      ensures messages == if old(messages) == [] && !practice then [BotMessage(id, Say(Intro), None)] else old(messages)
    {
      typing := false;
      if messages == [] && !practice {
        messages := [BotMessage(id, Say(Intro), None)];
      }
    }

    /** `getBotResponse`: the reply for `query`, `None` when the call it awaits
        throws; after a verified password the trade handler runs against the ledger. */
    method GetBotResponse(query: string, answers: Answers, tradeId: int) returns (reply: Option<Reply>)
      requires Valid()
      modifies ledger`portfolio, ledger`funds
      ensures Valid()
      ensures (reply, ledger.portfolio, ledger.funds)
              == Answer(context, query, tickers, answers, old(ledger.portfolio), old(ledger.funds), ledger.exchangeRate, tradeId)
    {
      if answers.rejected && CallsApi(context, Normalize(query), tickers) {
        return None;
      }
      var ok := false;
      if context.Some? && context.value.AwaitingPassword? && answers.verified {
        var d := context.value.details;
        match d.kind
        case Buy =>
          ok := ledger.BotBuy(d.ticker, d.quantity, context.value.price, tradeId);
        case Sell =>
          ok := ledger.BotSell(d.ticker, d.quantity, context.value.price);
      }
      reply := Some(Respond(context, query, tickers, answers, ok));
    }

    /** `submitQuery`: a blank query is ignored. Otherwise the page shows the bot
        typing and awaits the answer. When it rejects, the exception escapes: the
        typing flag stays on and nothing is logged. Otherwise the flag goes off, the
        reply is logged unless silent, a navigation action configures the indicator
        page, and the reply's context (or none) becomes the new context. */
    method SubmitQuery(query: string, answers: Answers, botId: int, tradeId: int) returns (reply: Option<Reply>)
      requires Valid()
      modifies this`context, this`messages, this`indicatorPage, this`typing, ledger`portfolio, ledger`funds
      ensures Valid()
      ensures JsTrim(query) == [] ==>
                reply == None && context == old(context) && messages == old(messages) &&
                indicatorPage == old(indicatorPage) && typing == old(typing) &&
                ledger.portfolio == old(ledger.portfolio) && ledger.funds == old(ledger.funds)
      ensures JsTrim(query) != [] ==>
                (reply, ledger.portfolio, ledger.funds)
                == Answer(old(context), query, tickers, answers, old(ledger.portfolio), old(ledger.funds), ledger.exchangeRate, tradeId) &&
                typing == reply.None? &&
                messages == old(messages) + BotLog(reply, botId) &&
                context == ContextAfter(reply, old(context)) &&
                indicatorPage == PageAfter(reply, old(indicatorPage))
    {
      if JsTrim(query) == [] {
        return None;
      }
      reply := GetBotResponse(query, answers, tradeId);
      // the flag is set before the await and cleared only when it returns
      typing := reply.None?;
      if reply.Some? {
        Record(reply.value, botId);
        assert BotLog(reply, botId) == (if reply.value.silent then [] else [BotMessage(botId, reply.value, None)]);
      } else {
        assert BotLog(reply, botId) == [];
      }
    }

    /** What `submitQuery` does with a reply: log it unless silent, configure the
        indicator page on a navigation action, and take over its context. */
    method Record(r: Reply, botId: int)
      modifies this`context, this`messages, this`indicatorPage
      ensures context == r.context
      ensures messages == old(messages) + (if r.silent then [] else [BotMessage(botId, r, None)])
      ensures indicatorPage == (if r.action.Some? then r.action else old(indicatorPage))
    {
      if !r.silent {
        messages := messages + [BotMessage(botId, r, None)];
      }
      if r.action.Some? {
        indicatorPage := r.action;
      }
      context := r.context;
    }

    /** `handleSend`: a blank input, or any input while the bot is typing, is ignored;
        otherwise the user's message is logged and submitted. */
    method Send(input: string, answers: Answers, userId: int, botId: int, tradeId: int)
      requires Valid()
      modifies this`context, this`messages, this`indicatorPage, this`typing, ledger`portfolio, ledger`funds
      ensures Valid()
      ensures JsTrim(input) == [] || old(typing) ==>
                context == old(context) && messages == old(messages) && indicatorPage == old(indicatorPage) &&
                typing == old(typing) && ledger.portfolio == old(ledger.portfolio) && ledger.funds == old(ledger.funds)
      ensures JsTrim(input) != [] && !old(typing) ==>
                var a := Answer(old(context), input, tickers, answers, old(ledger.portfolio), old(ledger.funds), ledger.exchangeRate, tradeId);
                var reply := a.0;
                ledger.portfolio == a.1 && ledger.funds == a.2 && typing == reply.None? &&
                messages == old(messages) + [UserMessage(userId, input, false)] + BotLog(reply, botId) &&
                context == ContextAfter(reply, old(context)) &&
                indicatorPage == PageAfter(reply, old(indicatorPage))
    {
      if JsTrim(input) == [] || typing {
        return;
      }
      messages := messages + [UserMessage(userId, input, false)];
      var reply := SubmitQuery(input, answers, botId, tradeId);
      assert (reply, ledger.portfolio, ledger.funds)
             == Answer(old(context), input, tickers, answers, old(ledger.portfolio), old(ledger.funds), ledger.exchangeRate, tradeId);
    }

    /** `handleSaveEdit`: every message with that id takes the new text and is
        marked edited, then the new text is submitted as a query (whether or not the
        bot is typing). */
    method SaveEdit(id: int, text: string, answers: Answers, botId: int, tradeId: int)
      requires Valid()
      modifies this`context, this`messages, this`indicatorPage, this`typing, ledger`portfolio, ledger`funds
      ensures Valid()
      ensures JsTrim(text) == [] ==>
                messages == Edited(old(messages), id, text) &&
                context == old(context) && indicatorPage == old(indicatorPage) && typing == old(typing) &&
                ledger.portfolio == old(ledger.portfolio) && ledger.funds == old(ledger.funds)
      ensures JsTrim(text) != [] ==>
                var a := Answer(old(context), text, tickers, answers, old(ledger.portfolio), old(ledger.funds), ledger.exchangeRate, tradeId);
                var reply := a.0;
                ledger.portfolio == a.1 && ledger.funds == a.2 && typing == reply.None? &&
                messages == Edited(old(messages), id, text) + BotLog(reply, botId) &&
                context == ContextAfter(reply, old(context)) &&
                indicatorPage == PageAfter(reply, old(indicatorPage))
    {
      var edited := Edited(messages, id, text);
      messages := edited;
      var reply := SubmitQuery(text, answers, botId, tradeId);
      if JsTrim(text) != [] {
        assert (reply, ledger.portfolio, ledger.funds)
               == Answer(old(context), text, tickers, answers, old(ledger.portfolio), old(ledger.funds), ledger.exchangeRate, tradeId);
        assert messages == edited + BotLog(reply, botId);
      }
    }
  }

  /** One message rewritten to `text` and marked edited; its sender, id and (for the
      bot) reply stay. */
  function Rewritten(m: Message, text: string): Message {
    match m
    case UserMessage(id, _, _) => UserMessage(id, text, true)
    case BotMessage(id, reply, _) => BotMessage(id, reply, Some(text))
  }

  /** The log with every message carrying `id`, the user's or the bot's, rewritten
      to `text`. */
  function Edited(log: seq<Message>, id: int, text: string): (r: seq<Message>)
    ensures |r| == |log|
    ensures forall i :: 0 <= i < |log| ==> r[i].id == log[i].id && r[i].UserMessage? == log[i].UserMessage?
    ensures forall i :: 0 <= i < |log| && log[i].id != id ==> r[i] == log[i]
    ensures forall i :: 0 <= i < |log| && log[i].id == id && log[i].UserMessage? ==> r[i] == UserMessage(id, text, true)
    ensures forall i :: 0 <= i < |log| && log[i].id == id && log[i].BotMessage? ==>
              r[i] == BotMessage(id, log[i].reply, Some(text))
  {
    seq(|log|, i requires 0 <= i < |log| => if log[i].id == id then Rewritten(log[i], text) else log[i])
  }
}
