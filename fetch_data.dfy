/** Quote and history access of the backend (backend/fetch_data.py): a cache of
    replies with a 120-second lifetime, the chart-period table, and the shaping of
    batch quote replies. The HTTP replies are parameters, already decoded from JSON. */
module FetchData {
  import opened Wrappers
  import opened Text
  import D = Dict

  const CacheExpirySeconds: real := 120.0

  /** Query parameters of the chart endpoint. */
  datatype Params = Params(range: string, interval: string)

  /** `PERIOD_MAPPING`. */
  const PeriodMapping: D.Dict<string, Params> := [
    ("1D", Params("1d", "5m")),
    ("1W", Params("5d", "30m")),
    ("1M", Params("1mo", "90m")),
    ("6M", Params("6mo", "1d")),
    ("1Y", Params("1y", "1d")),
    ("5Y", Params("5y", "1wk")),
    ("ALL", Params("max", "1mo"))
  ]

  /** `PERIOD_MAPPING.get(period_key, PERIOD_MAPPING["1M"])`. */
  function PeriodParams(periodKey: string): (p: Params)
    ensures periodKey in D.Keys(PeriodMapping) ==> D.Get(PeriodMapping, periodKey) == Some(p)
    ensures periodKey !in D.Keys(PeriodMapping) ==> p == Params("1mo", "90m")
  {
    match D.Get(PeriodMapping, periodKey)
    case Some(p) => p
    case None => PeriodMapping[2].1
  }

  /** The fallback is the "1M" entry itself. */
  lemma OneMonthIsFallback()
    ensures PeriodParams("1M") == Params("1mo", "90m")
  {
    assert PeriodMapping[0].0 != "1M" && PeriodMapping[1].0 != "1M";
  }

  /** The five-year period asks for five years of weekly bars. */
  lemma FiveYearPeriod()
    ensures PeriodParams("5Y") == Params("5y", "1wk")
  {
    D.GetFirst(PeriodMapping, 5, "5Y");
  }

  /** A history bar after `dropna`. */
  datatype Bar = Bar(stamp: int, open: real, high: real, low: real, close: real, volume: real)

  /** A history row as the chart reply gives it; `None` is a JSON null. */
  datatype RawBar = RawBar(stamp: int, open: Option<real>, high: Option<real>, low: Option<real>, close: Option<real>, volume: Option<real>)

  /** The chart reply: the request failed or raised one of the caught parsing
      errors (a missing key, an empty result list, a wrong type), it holds no chart
      or no timestamps, or it holds rows. */
  datatype HistoryReply = HistoryFailed | NoHistory | History(rows: seq<RawBar>)

  /** A JSON number field of a quote item: absent, null, or a number. */
  datatype Field = Missing | Null | Num(value: real)

  /** One element of `quoteResponse.result`; `symbol` is `None` when absent or null. */
  datatype QuoteItem = QuoteItem(symbol: Option<string>, price: Field, change: Field, percent: Field)

  /** The batch reply: the request failed or could not be read, or the list of
      quote items (empty when `quoteResponse` or `result` is absent). */
  datatype BatchReply = BatchFailed | Quotes(items: seq<QuoteItem>)

  /** A shaped quote; `None` is a JSON null passed through. */
  datatype Quote = Quote(currentPrice: Option<real>, change: Option<real>, percentChange: Option<real>)

  const ZeroQuote := Quote(Some(0.0), Some(0.0), Some(0.0))

  /** What the cache holds: a history frame or a batch result. */
  datatype CachedData = Frame(bars: seq<Bar>) | Batch(quotes: D.Dict<string, Quote>)

  /** `get_from_cache`: the stored data while it is younger than 120 seconds. */
  function Lookup(entries: D.Dict<string, (CachedData, real)>, key: string, now: real): (r: Option<CachedData>)
    ensures r.Some? ==> key in D.Keys(entries)
  {
    match D.Get(entries, key)
    case Some(entry) => if now - entry.1 < CacheExpirySeconds then Some(entry.0) else None
    case None => None
  }

  /** An entry stored at `stamp` is served until 120 seconds have passed, and other
      keys are not affected by storing it. */
  lemma StoredEntryServed(entries: D.Dict<string, (CachedData, real)>, key: string, data: CachedData, stamp: real, now: real, other: string)
    ensures Lookup(D.Put(entries, key, (data, stamp)), key, now) == if now - stamp < CacheExpirySeconds then Some(data) else None
    ensures other != key ==> Lookup(D.Put(entries, key, (data, stamp)), other, now) == Lookup(entries, other, now)
  {
    D.PutGet(entries, key, (data, stamp), key);
    D.PutGet(entries, key, (data, stamp), other);
  }

  /** The module-level `CACHE`. */
  class Cache {
    var entries: D.Dict<string, (CachedData, real)>

    /** Keys of batch results hold batch results. */
    ghost predicate Valid()
      reads this
    {
      forall i :: 0 <= i < |entries| && StartsWith(entries[i].0, "batch_") ==> entries[i].1.0.Batch?
    }

    constructor()
      ensures entries == [] && Valid()
    {
      entries := [];
    }

    /** `set_in_cache`. */
    method Set(key: string, data: CachedData, now: real)
      modifies this
      ensures entries == D.Put(old(entries), key, (data, now))
    {
      entries := D.Put(entries, key, (data, now));
    }
  }

  /** A row with a number in every column. */
  predicate Complete(r: RawBar) {
    r.open.Some? && r.high.Some? && r.low.Some? && r.close.Some? && r.volume.Some?
  }

  function ToBar(r: RawBar): Bar
    requires Complete(r)
  {
    Bar(r.stamp, r.open.value, r.high.value, r.low.value, r.close.value, r.volume.value)
  }

  /** Rows with a null in any column are dropped. */
  function DropNa(rows: seq<RawBar>): (bars: seq<Bar>)
    ensures |bars| <= |rows|
  {
    if rows == [] then []
    else
      var r := rows[|rows| - 1];
      DropNa(rows[..|rows| - 1]) + (if Complete(r) then [ToBar(r)] else [])
  }

  /** `dropna` keeps exactly the complete rows, in their order: one row gives a bar
      exactly when it is complete, and cleaning two runs of rows one after the
      other is cleaning them together. */
  lemma {:induction false} DropNaKeepsCompleteRows(a: seq<RawBar>, b: seq<RawBar>, r: RawBar)
    ensures DropNa([r]) == if Complete(r) then [ToBar(r)] else []
    ensures DropNa(a + b) == DropNa(a) + DropNa(b)
    decreases |b|
  {
    assert [r][..0] == [];
    if b == [] {
      assert a + b == a;
    } else {
      var init := b[..|b| - 1];
      DropNaKeepsCompleteRows(a, init, r);
      assert (a + b)[..|a + b| - 1] == a + init;
      assert (a + b)[|a + b| - 1] == b[|b| - 1];
    }
  }

  /** Every bar comes from a complete row, and every complete row gives a bar. */
  lemma {:induction false} DropNaMembers(rows: seq<RawBar>)
    ensures forall b :: b in DropNa(rows) <==> exists r :: r in rows && Complete(r) && ToBar(r) == b
  {
    if rows != [] {
      var init := rows[..|rows| - 1];
      DropNaMembers(init);
      assert rows == init + [rows[|rows| - 1]];
    }
  }

  function HistoryKey(ticker: string, periodKey: string): string {
    "history_" + ticker + "_" + periodKey
  }

  function BatchKey(tickers: seq<string>): string {
    "batch_" + Join(tickers, ",")
  }

  /** What `fetch_historical_data` does: the frame it returns, the parameters it
      requests (`None` when served from the cache), and the new cache. A cached
      frame is returned as is; a read reply is cleaned and cached; a caught
      failure gives an empty frame and caches nothing. */
  function Historical(entries: D.Dict<string, (CachedData, real)>, ticker: string, periodKey: string, now: real, reply: HistoryReply)
    : (r: (seq<Bar>, Option<Params>, D.Dict<string, (CachedData, real)>))
    ensures var cached := Lookup(entries, HistoryKey(ticker, periodKey), now);
            if cached.Some? && cached.value.Frame? then r == (cached.value.bars, None, entries)
            else r.1 == Some(PeriodParams(periodKey))
    ensures reply.History? && r.1.Some? ==> r.0 == DropNa(reply.rows)
    ensures !reply.History? && r.1.Some? ==> r.0 == []
    ensures reply.History? && r.1.Some? ==> r.2 == D.Put(entries, HistoryKey(ticker, periodKey), (Frame(r.0), now))
    ensures !reply.History? ==> r.2 == entries
  {
    var key := HistoryKey(ticker, periodKey);
    match Lookup(entries, key, now)
    case Some(Frame(bars)) => (bars, None, entries)
    case _ =>
      var params := PeriodParams(periodKey);
      match reply
      case History(rows) =>
        var df := DropNa(rows);
        (df, Some(params), D.Put(entries, key, (Frame(df), now)))
      case _ => ([], Some(params), entries)
  }

  /** The cache keys of histories never start with "batch_". */
  lemma HistoryKeyIsNotBatch(ticker: string, periodKey: string)
    ensures !StartsWith(HistoryKey(ticker, periodKey), "batch_")
  {
    assert HistoryKey(ticker, periodKey)[0] == 'h';
  }

  /** Within 120 seconds the same history is answered from the cache, without a
      request, and the cache is left as it was. */
  lemma RepeatedHistoryIsCached(entries: D.Dict<string, (CachedData, real)>, ticker: string, periodKey: string, now: real, reply: HistoryReply, later: real, reply2: HistoryReply)
    requires reply.History? && Historical(entries, ticker, periodKey, now, reply).1.Some?
    requires now <= later < now + CacheExpirySeconds
    ensures var first := Historical(entries, ticker, periodKey, now, reply);
            Historical(first.2, ticker, periodKey, later, reply2) == (DropNa(reply.rows), None, first.2)
  {
    StoredEntryServed(entries, HistoryKey(ticker, periodKey), Frame(DropNa(reply.rows)), now, later, HistoryKey(ticker, periodKey));
  }

  /** `fetch_historical_data`. */
  method FetchHistoricalData(cache: Cache, ticker: string, periodKey: string, now: real, reply: HistoryReply)
    returns (df: seq<Bar>, requested: Option<Params>)
    requires cache.Valid()
    modifies cache
    ensures cache.Valid()
    ensures (df, requested, cache.entries) == Historical(old(cache.entries), ticker, periodKey, now, reply)
  {
    var key := HistoryKey(ticker, periodKey);
    var cached := Lookup(cache.entries, key, now);
    if cached.Some? && cached.value.Frame? {
      return cached.value.bars, None;
    }
    var params := PeriodParams(periodKey);
    requested := Some(params);
    if reply.History? {
      df := DropNa(reply.rows);
      HistoryKeyIsNotBatch(ticker, periodKey);
      PutKeepsValid(cache.entries, key, Frame(df), now);
      cache.Set(key, Frame(df), now);
    } else {
      df := [];
    }
  }

  /** Storing under a key that is not a batch key, or storing a batch result,
      keeps the cache's invariant. */
  lemma PutKeepsValid(entries: D.Dict<string, (CachedData, real)>, key: string, data: CachedData, now: real)
    requires forall i :: 0 <= i < |entries| && StartsWith(entries[i].0, "batch_") ==> entries[i].1.0.Batch?
    requires StartsWith(key, "batch_") ==> data.Batch?
    ensures var e := D.Put(entries, key, (data, now));
            forall i :: 0 <= i < |e| && StartsWith(e[i].0, "batch_") ==> e[i].1.0.Batch?
  {
    D.PutPairs(entries, key, (data, now));
    var e := D.Put(entries, key, (data, now));
    forall i | 0 <= i < |e| && StartsWith(e[i].0, "batch_") ensures e[i].1.0.Batch? {
      assert e[i] in e;
    }
  }

  /** `fetch_data_for_range`: the dates are not used; it is the five-year history. */
  method FetchDataForRange(cache: Cache, ticker: string, startDate: string, endDate: string, now: real, reply: HistoryReply)
    returns (df: seq<Bar>, requested: Option<Params>)
    requires cache.Valid()
    modifies cache
    ensures cache.Valid()
    ensures (df, requested, cache.entries) == Historical(old(cache.entries), ticker, "5Y", now, reply)
  {
    df, requested := FetchHistoricalData(cache, ticker, "5Y", now, reply);
  }

  /** `item.get(name, 0)`: an absent field reads 0, a null stays null. */
  function FieldOrZero(f: Field): (r: Option<real>)
    ensures f.Num? ==> r == Some(f.value)
    ensures f.Missing? ==> r == Some(0.0)
    ensures f.Null? ==> r.None?
  {
    match f
    case Missing => Some(0.0)
    case Null => None
    case Num(x) => Some(x)
  }

  function QuoteOf(item: QuoteItem): Quote {
    Quote(FieldOrZero(item.price), FieldOrZero(item.change), FieldOrZero(item.percent))
  }

  /** A symbol counts when present and non-empty. */
  predicate HasSymbol(item: QuoteItem) {
    item.symbol.Some? && item.symbol.value != ""
  }

  /** The assignments `results[symbol] = {...}` of the first loop, in order. */
  function QuotePairs(items: seq<QuoteItem>): (kvs: seq<(string, Quote)>)
    ensures forall k :: 0 <= k < |kvs| ==> kvs[k].0 != ""
  {
    if items == [] then []
    else
      var item := items[|items| - 1];
      QuotePairs(items[..|items| - 1]) + (if HasSymbol(item) then [(item.symbol.value, QuoteOf(item))] else [])
  }

  /** The display name of a symbol. */
  function Rename(symbol: string): (name: string)
    ensures symbol == "^NSEI" ==> name == "NIFTY 50"
    ensures symbol == "^BSESN" ==> name == "SENSEX"
    ensures symbol != "^NSEI" && symbol != "^BSESN" ==> name == symbol
  {
    if symbol == "^NSEI" then "NIFTY 50" else if symbol == "^BSESN" then "SENSEX" else symbol
  }

  /** The assignments of the remapping loop. */
  function RenamedPairs(results: D.Dict<string, Quote>): (kvs: seq<(string, Quote)>)
    ensures |kvs| == |results|
    ensures forall k :: 0 <= k < |results| ==> kvs[k] == (Rename(results[k].0), results[k].1)
  {
    seq(|results|, k requires 0 <= k < |results| => (Rename(results[k].0), results[k].1))
  }

  /** The shaped batch result of a read reply. */
  function Shaped(items: seq<QuoteItem>): D.Dict<string, Quote> {
    D.PutAll([], RenamedPairs(D.PutAll([], QuotePairs(items))))
  }

  /** The fallback `{t: zero quote for t in tickers}`. */
  function Fallback(tickers: seq<string>): (r: D.Dict<string, Quote>) {
    D.PutAll([], seq(|tickers|, k requires 0 <= k < |tickers| => (tickers[k], ZeroQuote)))
  }

  /** What `fetch_batch_stock_info` does: the result, whether it asks the quote
      service, and the new cache. */
  function BatchResult(entries: D.Dict<string, (CachedData, real)>, tickers: seq<string>, now: real, reply: BatchReply)
    : (r: (D.Dict<string, Quote>, bool, D.Dict<string, (CachedData, real)>))
    ensures tickers == [] ==> r == ([], false, entries)
    ensures r.1 <==> tickers != [] && !(Lookup(entries, BatchKey(tickers), now).Some? && Lookup(entries, BatchKey(tickers), now).value.Batch?)
    ensures tickers != [] && Lookup(entries, BatchKey(tickers), now).Some? && Lookup(entries, BatchKey(tickers), now).value.Batch? ==>
              r == (Lookup(entries, BatchKey(tickers), now).value.quotes, false, entries)
    ensures r.1 && reply.BatchFailed? ==> r.0 == Fallback(tickers) && r.2 == entries
    ensures r.1 && reply.Quotes? ==> r.0 == Shaped(reply.items) && r.2 == D.Put(entries, BatchKey(tickers), (Batch(r.0), now))
    ensures !r.1 ==> r.2 == entries
  {
    if tickers == [] then ([], false, entries)
    else
      var key := BatchKey(tickers);
      match Lookup(entries, key, now)
      case Some(Batch(quotes)) => (quotes, false, entries)
      case _ =>
        match reply
        case BatchFailed => (Fallback(tickers), true, entries)
        case Quotes(items) =>
          var shaped := Shaped(items);
          (shaped, true, D.Put(entries, key, (Batch(shaped), now)))
  }

  /** Within 120 seconds a batch is answered from the cache, without a request. */
  lemma RepeatedBatchIsCached(entries: D.Dict<string, (CachedData, real)>, tickers: seq<string>, now: real, reply: BatchReply, later: real, reply2: BatchReply)
    requires tickers != [] && reply.Quotes? && BatchResult(entries, tickers, now, reply).1
    requires now <= later < now + CacheExpirySeconds
    ensures var first := BatchResult(entries, tickers, now, reply);
            BatchResult(first.2, tickers, later, reply2) == (first.0, false, first.2)
  {
    var first := BatchResult(entries, tickers, now, reply);
    StoredEntryServed(entries, BatchKey(tickers), Batch(first.0), now, later, BatchKey(tickers));
  }

  /** `fetch_batch_stock_info`. */
  method FetchBatchStockInfo(cache: Cache, tickers: seq<string>, now: real, reply: BatchReply)
    returns (result: D.Dict<string, Quote>, requested: bool)
    requires cache.Valid()
    modifies cache
    ensures cache.Valid()
    ensures (result, requested, cache.entries) == BatchResult(old(cache.entries), tickers, now, reply)
  {
    if tickers == [] {
      return [], false;
    }
    var key := BatchKey(tickers);
    var cached := Lookup(cache.entries, key, now);
    if cached.Some? {
      CachedBatchIsBatch(cache.entries, key, now);
      return cached.value.quotes, false;
    }
    requested := true;
    if reply.BatchFailed? {
      result := Fallback(tickers);
      return;
    }
    result := ShapeQuotes(reply.items);
    PutKeepsValid(cache.entries, key, Batch(result), now);
    cache.Set(key, Batch(result), now);
  }

  /** What a batch key finds in a valid cache is a batch result. */
  lemma CachedBatchIsBatch(entries: D.Dict<string, (CachedData, real)>, key: string, now: real)
    requires forall i :: 0 <= i < |entries| && StartsWith(entries[i].0, "batch_") ==> entries[i].1.0.Batch?
    requires StartsWith(key, "batch_") && Lookup(entries, key, now).Some?
    ensures Lookup(entries, key, now).value.Batch?
  {
    var i := KeyIndex(entries, key);
  }

  /** Where `Get` found its value. */
  lemma {:induction false} KeyIndex<V>(d: D.Dict<string, V>, key: string) returns (i: nat)
    requires D.Get(d, key).Some?
    ensures i < |d| && d[i].0 == key && D.Get(d, key) == Some(d[i].1)
  {
    if d[0].0 == key {
      i := 0;
    } else {
      var j := KeyIndex(d[1..], key);
      i := j + 1;
    }
  }

  /** The two loops of a successful batch: collect the quotes by symbol, then
      rename the index symbols. */
  method ShapeQuotes(items: seq<QuoteItem>) returns (finalResults: D.Dict<string, Quote>)
    ensures finalResults == Shaped(items)
  {
    var results: D.Dict<string, Quote> := [];
    var i := 0;
    while i < |items|
      invariant 0 <= i <= |items|
      invariant results == D.PutAll([], QuotePairs(items[..i]))
    {
      assert items[..i + 1][..i] == items[..i];
      var item := items[i];
      if HasSymbol(item) {
        assert QuotePairs(items[..i + 1]) == QuotePairs(items[..i]) + [(item.symbol.value, QuoteOf(item))];
        D.PutAllSnoc([], QuotePairs(items[..i]), (item.symbol.value, QuoteOf(item)));
        results := D.Put(results, item.symbol.value, QuoteOf(item));
      } else {
        assert QuotePairs(items[..i + 1]) == QuotePairs(items[..i]) + [];
        assert QuotePairs(items[..i]) + [] == QuotePairs(items[..i]);
      }
      i := i + 1;
    }
    assert items[..i] == items;
    finalResults := [];
    var k := 0;
    while k < |results|
      invariant 0 <= k <= |results|
      invariant finalResults == D.PutAll([], RenamedPairs(results[..k]))
    {
      assert RenamedPairs(results[..k + 1]) == RenamedPairs(results[..k]) + [(Rename(results[k].0), results[k].1)];
      D.PutAllSnoc([], RenamedPairs(results[..k]), (Rename(results[k].0), results[k].1));
      var key := results[k].0;
      var value := results[k].1;
      if key == "^NSEI" {
        finalResults := D.Put(finalResults, "NIFTY 50", value);
      } else if key == "^BSESN" {
        finalResults := D.Put(finalResults, "SENSEX", value);
      } else {
        finalResults := D.Put(finalResults, key, value);
      }
      k := k + 1;
    }
    assert results[..k] == results;
  }

  /** A renaming that sends exactly the key `s` to `t` makes `t` read what `s` read. */
  lemma {:induction false} RenamedLast(results: D.Dict<string, Quote>, t: string, s: string)
    requires forall i :: 0 <= i < |results| ==> (Rename(results[i].0) == t <==> results[i].0 == s)
    ensures D.LastValue(RenamedPairs(results), t) == D.LastValue(results, s)
  {
    if results != [] {
      assert RenamedPairs(results)[1..] == RenamedPairs(results[1..]);
      RenamedLast(results[1..], t, s);
    }
  }

  /** The shaped batch result: a plain symbol reads the quote of the last item with
      that symbol; "NIFTY 50" and "SENSEX" read the last "^NSEI" and "^BSESN"
      quotes when the reply has no item under the display name itself; the index
      symbols themselves are gone. */
  lemma ShapedLookup(items: seq<QuoteItem>, t: string)
    ensures t != "NIFTY 50" && t != "SENSEX" && t != "^NSEI" && t != "^BSESN" ==>
              D.Get(Shaped(items), t) == D.LastValue(QuotePairs(items), t)
    ensures D.LastValue(QuotePairs(items), "NIFTY 50").None? ==>
              D.Get(Shaped(items), "NIFTY 50") == D.LastValue(QuotePairs(items), "^NSEI")
    ensures D.LastValue(QuotePairs(items), "SENSEX").None? ==>
              D.Get(Shaped(items), "SENSEX") == D.LastValue(QuotePairs(items), "^BSESN")
    ensures D.Get(Shaped(items), "^NSEI").None? && D.Get(Shaped(items), "^BSESN").None?
  {
    var qp := QuotePairs(items);
    var results := D.PutAll([], qp);
    D.PutAllUnique([], qp);
    if t != "NIFTY 50" && t != "SENSEX" && t != "^NSEI" && t != "^BSESN" {
      ReadsThrough(items, t, t);
    }
    if D.LastValue(qp, "NIFTY 50").None? {
      ReadsThrough(items, "NIFTY 50", "^NSEI");
    }
    if D.LastValue(qp, "SENSEX").None? {
      ReadsThrough(items, "SENSEX", "^BSESN");
    }
    D.PutAllGet([], RenamedPairs(results), "^NSEI");
    D.PutAllGet([], RenamedPairs(results), "^BSESN");
    NoIndexSymbol(results);
  }

  /** After renaming, no pair carries an index symbol. */
  lemma {:induction false} NoIndexSymbol(results: D.Dict<string, Quote>)
    ensures D.LastValue(RenamedPairs(results), "^NSEI").None? && D.LastValue(RenamedPairs(results), "^BSESN").None?
  {
    if results != [] {
      assert RenamedPairs(results)[1..] == RenamedPairs(results[1..]);
      NoIndexSymbol(results[1..]);
    }
  }

  /** `t` in the shaped result reads what `s` read among the collected quotes, when
      `s` is the only collected symbol renamed to `t`. */
  lemma ReadsThrough(items: seq<QuoteItem>, t: string, s: string)
    requires s == t || (t == "NIFTY 50" && s == "^NSEI") || (t == "SENSEX" && s == "^BSESN")
    requires s == t ==> t != "NIFTY 50" && t != "SENSEX" && t != "^NSEI" && t != "^BSESN"
    requires s != t ==> D.LastValue(QuotePairs(items), t).None?
    ensures D.Get(Shaped(items), t) == D.LastValue(QuotePairs(items), s)
  {
    var qp := QuotePairs(items);
    var results := D.PutAll([], qp);
    D.PutAllUnique([], qp);
    D.PutAllGet([], qp, t);
    forall i | 0 <= i < |results| ensures Rename(results[i].0) == t <==> results[i].0 == s {
      if s != t {
        assert results[i].0 in D.Keys(results) by { assert D.Keys(results)[i] == results[i].0; }
      }
    }
    RenamedLast(results, t, s);
    D.PutAllGet([], RenamedPairs(results), t);
    D.LastValueIsGet(results, s);
    D.PutAllGet([], qp, s);
  }

  /** On failure every requested ticker reads the zero quote, and nothing else is
      in the result. */
  lemma FallbackLookup(tickers: seq<string>, t: string)
    ensures D.Get(Fallback(tickers), t) == if t in tickers then Some(ZeroQuote) else None
  {
    var kvs := seq(|tickers|, k requires 0 <= k < |tickers| => (tickers[k], ZeroQuote));
    D.PutAllGet([], kvs, t);
    ConstantLast(tickers, t);
  }

  lemma {:induction false} ConstantLast(tickers: seq<string>, t: string)
    ensures D.LastValue(seq(|tickers|, k requires 0 <= k < |tickers| => (tickers[k], ZeroQuote)), t) ==
            if t in tickers then Some(ZeroQuote) else None
  {
    if tickers != [] {
      var kvs := seq(|tickers|, k requires 0 <= k < |tickers| => (tickers[k], ZeroQuote));
      assert kvs[1..] == seq(|tickers[1..]|, k requires 0 <= k < |tickers[1..]| => (tickers[1..][k], ZeroQuote));
      ConstantLast(tickers[1..], t);
      assert t in tickers <==> t == tickers[0] || t in tickers[1..];
    }
  }
}
