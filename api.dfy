/** The API server's own logic (backend/main.py): the user and transaction stores
    behind signup, login, password verification and the transaction log; the
    ticker list; the backtest stub; and the placeholder prediction. The JSON files
    behind the stores are in-memory maps, and bcrypt is a pair of functions the
    caller supplies. */
module Api {
  import opened Wrappers
  import opened Text
  import FD = FetchData
  import Ml = MlModel

  /** A reply of an endpoint: a value, or an HTTP error with its status and detail. */
  datatype Reply<+T> = Success(value: T) | HttpError(status: nat, detail: string)

  /** A logged trade, as the client sends it. */
  datatype Transaction = Transaction(kind: string, ticker: string, quantity: real, price: real, timestamp: string)

  /** passlib's bcrypt context: `hash(password, salt)` and `verify(password, hashed)`. */
  datatype Hasher = Hasher(hash: (string, string) -> string, verify: (string, string) -> bool)

  /** A hasher accepts every password against its own hash. */
  ghost predicate Sound(h: Hasher) {
    forall password, salt :: h.verify(password, h.hash(password, salt))
  }

  /** users.json: username to hashed password. */
  type Users = map<string, string>

  /** transactions.json: username to that user's transactions, newest first. */
  type Logs = map<string, seq<Transaction>>

  /** `signup`: a taken username fails with 400 and changes nothing; otherwise the
      password's hash is stored and the user's transaction list is reset to empty. */
  function SignUp(users: Users, logs: Logs, username: string, password: string, salt: string, h: Hasher)
    : (r: (Reply<string>, Users, Logs))
    ensures r.0.HttpError? <==> username in users
    ensures r.0.HttpError? ==> r.0.status == 400 && r.1 == users && r.2 == logs
    ensures r.0.Success? ==>
              r.0.value == username &&
              r.1.Keys == users.Keys + {username} && r.1[username] == h.hash(password, salt) &&
              r.2.Keys == logs.Keys + {username} && r.2[username] == [] &&
              (forall u :: u in users ==> r.1[u] == users[u]) &&
              (forall u :: u in logs && u != username ==> r.2[u] == logs[u])
  {
    if username in users then (HttpError(400, "Username already registered"), users, logs)
    else (Success(username), users[username := h.hash(password, salt)], logs[username := []])
  }

  /** `login`: 404 unless the user exists and the password verifies against the
      stored hash; otherwise the username. */
  function LogIn(users: Users, username: string, password: string, h: Hasher): (r: Reply<string>)
    ensures r.Success? <==> username in users && h.verify(password, users[username])
    ensures r.Success? ==> r.value == username
    ensures r.HttpError? ==> r.status == 404
  {
    if username !in users || !h.verify(password, users[username]) then
      HttpError(404, "Incorrect username or password")
    else Success(username)
  }

  /** `verify_password`: true exactly when the user exists and the password verifies. */
  function VerifyPassword(users: Users, username: string, password: string, h: Hasher): (verified: bool)
    ensures verified <==> username in users && h.verify(password, users[username])
  {
    username in users && h.verify(password, users[username])
  }

  /** Password verification answers true exactly when login would succeed. */
  lemma VerifyAgreesWithLogIn(users: Users, username: string, password: string, h: Hasher)
    ensures VerifyPassword(users, username, password, h) == LogIn(users, username, password, h).Success?
  {
  }

  /** A new user can log in with the password they signed up with. */
  lemma SignUpThenLogIn(users: Users, logs: Logs, username: string, password: string, salt: string, h: Hasher)
    requires Sound(h) && username !in users
    ensures var after := SignUp(users, logs, username, password, salt, h);
            LogIn(after.1, username, password, h) == Success(username)
  {
    var after := SignUp(users, logs, username, password, salt, h);
    assert h.verify(password, h.hash(password, salt));
  }

  /** A second signup under the same name fails and keeps the first password. */
  lemma SignUpTwice(users: Users, logs: Logs, username: string, p1: string, p2: string, s1: string, s2: string, h: Hasher)
    requires username !in users
    ensures var first := SignUp(users, logs, username, p1, s1, h);
            var second := SignUp(first.1, first.2, username, p2, s2, h);
            second.0 == HttpError(400, "Username already registered") &&
            second.1[username] == h.hash(p1, s1)
  {
  }

  /** `get_transactions`: the stored list, or [] for an unknown user. */
  function Transactions(logs: Logs, username: string): (r: seq<Transaction>)
    ensures username in logs ==> r == logs[username]
    ensures username !in logs ==> r == []
  {
    if username in logs then logs[username] else []
  }

  /** `log_transaction`: an unknown user gets an empty list first, then the
      transaction goes to the front. */
  function Logged(logs: Logs, username: string, t: Transaction): (r: Logs)
    ensures r.Keys == logs.Keys + {username}
    ensures forall u :: u in logs && u != username ==> r[u] == logs[u]
  {
    logs[username := [t] + Transactions(logs, username)]
  }

  /** Logging puts the transaction first in that user's list, after which the older
      ones follow in their order; other users' lists are untouched. */
  lemma LoggedNewestFirst(logs: Logs, username: string, t: Transaction, other: string)
    ensures Transactions(Logged(logs, username, t), username) == [t] + Transactions(logs, username)
    ensures other != username ==>
              Transactions(Logged(logs, username, t), other) == Transactions(logs, other)
  {
  }

  /** Logging several transactions lists them in reverse order of logging. */
  lemma {:induction false} LoggedInReverse(logs: Logs, username: string, ts: seq<Transaction>)
    ensures Transactions(LogAll(logs, username, ts), username) == Reversed(ts) + Transactions(logs, username)
  {
    if ts != [] {
      var init := ts[..|ts| - 1];
      LoggedInReverse(logs, username, init);
      LoggedNewestFirst(LogAll(logs, username, init), username, ts[|ts| - 1], username);
    }
  }

  /** The transactions logged one after the other. */
  function LogAll(logs: Logs, username: string, ts: seq<Transaction>): Logs {
    if ts == [] then logs else Logged(LogAll(logs, username, ts[..|ts| - 1]), username, ts[|ts| - 1])
  }

  function Reversed<T>(s: seq<T>): (r: seq<T>)
    ensures |r| == |s| && forall i :: 0 <= i < |s| ==> r[i] == s[|s| - 1 - i]
  {
    if s == [] then [] else [s[|s| - 1]] + Reversed(s[..|s| - 1])
  }

  /** The two JSON stores. */
  class Stores {
    var users: Users
    var logs: Logs

    /** Every registered user has a transaction list. */
    ghost predicate Valid()
      reads this
    {
      users.Keys <= logs.Keys
    }

    /** Empty stores, as when neither file exists. */
    constructor()
      ensures users == map[] && logs == map[] && Valid()
    {
      users := map[];
      logs := map[];
    }

    /** The `/signup` endpoint. */
    method Signup(username: string, password: string, salt: string, h: Hasher) returns (r: Reply<string>)
      requires Valid()
      modifies this
      ensures Valid()
      ensures (r, users, logs) == SignUp(old(users), old(logs), username, password, salt, h)
    {
      if username in users {
        return HttpError(400, "Username already registered");
      }
      users := users[username := h.hash(password, salt)];
      logs := logs[username := []];
      r := Success(username);
    }

    /** The `/login` endpoint. */
    method Login(username: string, password: string, h: Hasher) returns (r: Reply<string>)
      ensures r == LogIn(users, username, password, h)
    {
      if username in users && h.verify(password, users[username]) {
        r := Success(username);
      } else {
        r := HttpError(404, "Incorrect username or password");
      }
    }

    /** The `/verify-password` endpoint. */
    method Verify(username: string, password: string, h: Hasher) returns (verified: bool)
      ensures verified == VerifyPassword(users, username, password, h)
    {
      verified := username in users && h.verify(password, users[username]);
    }

    /** The `/log-transaction` endpoint. */
    method LogTransaction(username: string, t: Transaction) returns (status: string)
      requires Valid()
      modifies this`logs
      ensures Valid()
      ensures status == "success"
      ensures logs == Logged(old(logs), username, t)
    {
      if username !in logs {
        logs := logs[username := []];
      }
      logs := logs[username := [t] + logs[username]];
      status := "success";
    }

    /** The `/get-transactions` endpoint. */
    method GetTransactions(username: string) returns (r: seq<Transaction>)
      ensures r == Transactions(logs, username)
    {
      r := if username in logs then logs[username] else [];
    }
  }

  // Ticker list

  /** The tickers offered whatever the CSV holds. */
  const International: seq<string> := ["AAPL", "GOOGL", "MSFT", "TSLA", "AMZN", "NVDA", "META", "BTC-USD", "ETH-USD"]

  /** The ticker added to the CSV's symbols. */
  const ExtraIndian: string := "HINDZINC.NS"

  /** What reading nse_tickers.csv gives: no file, no SYMBOL column, a read error,
      or the SYMBOL column (`None` for an empty cell). */
  datatype TickerCsv = NoFile | NoSymbolColumn | ReadFailed | Symbols(column: seq<Option<string>>)

  /** Python's `<` on strings: code-point lexicographic order. */
  predicate Below(a: string, b: string) {
    if a == [] then b != []
    else b != [] && (a[0] < b[0] || (a[0] == b[0] && Below(a[1..], b[1..])))
  }

  lemma {:induction false} BelowIrreflexive(a: string)
    ensures !Below(a, a)
  {
    if a != [] {
      BelowIrreflexive(a[1..]);
    }
  }

  lemma {:induction false} BelowTransitive(a: string, b: string, c: string)
    requires Below(a, b) && Below(b, c)
    ensures Below(a, c)
  {
    if a != [] && a[0] == b[0] && b[0] == c[0] {
      BelowTransitive(a[1..], b[1..], c[1..]);
    }
  }

  lemma {:induction false} BelowTotal(a: string, b: string)
    requires a != b
    ensures Below(a, b) || Below(b, a)
  {
    if a != [] && b != [] && a[0] == b[0] {
      assert a == [a[0]] + a[1..] && b == [b[0]] + b[1..];
      BelowTotal(a[1..], b[1..]);
    }
  }

  /** Strictly increasing in Python's string order. */
  predicate StrictlySorted(s: seq<string>) {
    forall i, j :: 0 <= i < j < |s| ==> Below(s[i], s[j])
  }

  /** A strictly sorted list has no duplicates. */
  lemma SortedIsDistinct(s: seq<string>)
    requires StrictlySorted(s)
    ensures forall i, j :: 0 <= i < j < |s| ==> s[i] != s[j]
  {
    forall i, j | 0 <= i < j < |s| ensures s[i] != s[j] {
      BelowIrreflexive(s[i]);
    }
  }

  /** `x` placed into a strictly sorted list, unless it is already there. */
  function Insert(x: string, s: seq<string>): (r: seq<string>)
    requires StrictlySorted(s)
    ensures StrictlySorted(r)
    ensures forall y :: y in r <==> y == x || y in s
  {
    if s == [] then [x]
    else if x == s[0] then s
    else if Below(x, s[0]) then
      assert forall j :: 0 < j < |s| ==> Below(x, s[j]) by {
        forall j | 0 < j < |s| {
          BelowTransitive(x, s[0], s[j]);
        }
      }
      [x] + s
    else
      BelowTotal(x, s[0]);
      var rest := Insert(x, s[1..]);
      assert forall y :: y in rest ==> Below(s[0], y);
      [s[0]] + rest
  }

  /** `sorted(set(s))`. */
  function SortedSet(s: seq<string>): (r: seq<string>)
    ensures StrictlySorted(r)
    ensures forall y :: y in r <==> y in s
  {
    if s == [] then []
    else Insert(s[|s| - 1], SortedSet(s[..|s| - 1]))
  }

  /** The ticker of an NSE symbol: stripped, with ".NS" appended. */
  function SymbolTicker(symbol: string): (t: string)
    ensures EndsWith(t, ".NS")
  {
    PyStrip(symbol) + ".NS"
  }

  /** Each non-empty SYMBOL cell, stripped, with ".NS" appended. (Taking `unique()`
      first changes nothing once the list goes through a set.) */
  function Suffixed(column: seq<Option<string>>): (r: seq<string>)
    ensures |r| <= |column|
  {
    if column == [] then []
    else
      var last := column[|column| - 1];
      Suffixed(column[..|column| - 1]) + (if last.Some? then [SymbolTicker(last.value)] else [])
  }

  /** Every non-empty cell's ticker is in the suffixed list. */
  lemma {:induction false} SuffixedHas(column: seq<Option<string>>, i: nat)
    requires i < |column| && column[i].Some?
    ensures SymbolTicker(column[i].value) in Suffixed(column)
  {
    var init := column[..|column| - 1];
    var last := column[|column| - 1];
    var tail := if last.Some? then [SymbolTicker(last.value)] else [];
    assert Suffixed(column) == Suffixed(init) + tail;
    if i < |init| {
      SuffixedHas(init, i);
      assert init[i] == column[i];
      InLeft(Suffixed(init), tail, SymbolTicker(column[i].value));
    } else {
      assert tail == [SymbolTicker(column[i].value)];
    }
  }

  lemma InLeft<T>(a: seq<T>, b: seq<T>, x: T)
    requires x in a
    ensures x in a + b
  {
  }

  /** Every ticker in the suffixed list comes from a non-empty cell. */
  lemma {:induction false} SuffixedFrom(column: seq<Option<string>>, x: string) returns (i: nat)
    requires x in Suffixed(column)
    ensures i < |column| && column[i].Some? && x == SymbolTicker(column[i].value)
  {
    var init := column[..|column| - 1];
    var last := column[|column| - 1];
    if x in Suffixed(init) {
      i := SuffixedFrom(init, x);
      assert init[i] == column[i];
    } else {
      i := |column| - 1;
    }
  }

  /** `get_all_tickers`: the sorted set of the international tickers, HINDZINC.NS
      and the CSV's suffixed symbols; the international list alone when the CSV
      cannot be used. */
  function AllTickers(csv: TickerCsv): (r: seq<string>)
    ensures !csv.Symbols? ==> r == International
    ensures csv.Symbols? ==> StrictlySorted(r)
    ensures csv.Symbols? ==>
              forall x :: x in r <==>
                x in International || x == ExtraIndian ||
                exists i :: 0 <= i < |csv.column| && csv.column[i].Some? &&
                            x == SymbolTicker(csv.column[i].value)
  {
    match csv
    case Symbols(column) =>
      var all := International + (Suffixed(column) + [ExtraIndian]);
      assert forall x :: x in all <==>
               x in International || x == ExtraIndian ||
               exists i :: 0 <= i < |column| && column[i].Some? && x == SymbolTicker(column[i].value)
      by {
        forall x | x in Suffixed(column)
          ensures exists i :: 0 <= i < |column| && column[i].Some? && x == SymbolTicker(column[i].value)
        {
          var i := SuffixedFrom(column, x);
        }
        forall i | 0 <= i < |column| && column[i].Some? {
          SuffixedHas(column, i);
        }
      }
      SortedSet(all)
    case _ => International
  }

  /** The list is free of duplicates whenever the CSV was read. */
  lemma TickersAreDistinct(column: seq<Option<string>>)
    ensures var r := AllTickers(Symbols(column));
            forall i, j :: 0 <= i < j < |r| ==> r[i] != r[j]
  {
    SortedIsDistinct(AllTickers(Symbols(column)));
  }

  // Stub endpoints

  /** A `/backtest` request. */
  datatype BacktestRequest = BacktestRequest(ticker: string, holdingDays: int, minScore: real,
                                             stopLossPct: real, takeProfitPct: real)

  /** `run_backtest`: the endpoint is not implemented, so every request gets a 501
      and the backtester is never run. */
  function RunBacktest(req: BacktestRequest): (r: Reply<()>)
    ensures r.HttpError? && r.status == 501
  {
    HttpError(501, "Backtesting endpoint is not implemented yet.")
  }

  /** The `/predict` reply. */
  datatype PredictionResponse = PredictionResponse(nextDayPrice: real, accuracy: real, tradeStatus: string, sentiment: real)

  /** `predict_stock` on the one-month frame: 404 when it is empty, otherwise the
      last close grown by 0.5%, accuracy 0.75, status HOLD and sentiment 0.5. */
  function Predict(df: seq<FD.Bar>): (r: Reply<PredictionResponse>)
    ensures r.HttpError? <==> df == []
    ensures r.HttpError? ==> r.status == 404
    ensures r.Success? ==>
              r.value.accuracy == 0.75 && r.value.tradeStatus == "HOLD" && r.value.sentiment == 0.5
  {
    if df == [] then HttpError(404, "Not enough data for prediction.")
    else Success(PredictionResponse(df[|df| - 1].close * 1.005, 0.75, "HOLD", 0.5))
  }

  /** The endpoint's price is the trained model's projection of the same closes, and
      lies above the last close when that is positive. */
  lemma PredictIsTrainedProjection(df: seq<FD.Bar>, scaler: Ml.Scaler)
    requires df != []
    ensures var closes := seq(|df|, i requires 0 <= i < |df| => Some(df[i].close));
            var (price, accuracy) := Ml.GetPrediction(Some(scaler), closes);
            Predict(df).value.nextDayPrice == price.value && Predict(df).value.accuracy == accuracy
    ensures df[|df| - 1].close > 0.0 ==> Predict(df).value.nextDayPrice > df[|df| - 1].close
  {
  }

  /** The `/predict` endpoint: the one-month history, then the prediction. */
  method PredictStock(cache: FD.Cache, ticker: string, now: real, reply: FD.HistoryReply)
    returns (r: Reply<PredictionResponse>)
    requires cache.Valid()
    modifies cache
    ensures cache.Valid()
    ensures r == Predict(FD.Historical(old(cache.entries), ticker, "1M", now, reply).0)
  {
    var df, _ := FD.FetchHistoricalData(cache, ticker, "1M", now, reply);
    r := Predict(df);
  }
}
