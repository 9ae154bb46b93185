/** The score-driven backtest (backend/backtester.py, `backtest_strategy`): every
    row whose score reaches the threshold opens a trade at its close, which is
    closed at the first later day that touches the take-profit or the stop-loss
    level, or after the holding period. */
module Backtester {
  import opened Wrappers
  import opened Lists

  /** A row of the frame; a missing or NaN value is `None`. */
  datatype Row = Row(date: int, close: Option<real>, score: Option<real>, high: Option<real>, low: Option<real>)

  /** A row that survived `dropna(subset=['Close', 'Score'])`. */
  datatype Bar = Bar(date: int, close: real, score: real, high: Option<real>, low: Option<real>)

  datatype ExitReason = TakeProfitHit | StopLossHit | HeldFor(days: nat)

  /** One entry of the result list; `returnPct` is `None` where the division by a
      zero buy price gives no finite number. */
  datatype Trade = Trade(buyDate: int, sellDate: int, buyPrice: real, sellPrice: real, returnPct: Option<real>, reason: ExitReason)

  /** Where and how a trade is closed. */
  datatype Exit = Exit(row: nat, price: real, reason: ExitReason)

  predicate Complete(r: Row) {
    r.close.Some? && r.score.Some?
  }

  function ToBar(r: Row): Bar
    requires Complete(r)
  {
    Bar(r.date, r.close.value, r.score.value, r.high, r.low)
  }

  /** The frame after dropping rows without a close or a score. */
  function Clean(rows: seq<Row>): (df: seq<Bar>)
    ensures |df| <= |rows|
  {
    var kept := Filter(rows, Complete);
    seq(|kept|, k requires 0 <= k < |kept| => ToBar(kept[k]))
  }

  /** `dropna` keeps exactly the complete rows, in their order, each as its bar: one
      row gives a bar exactly when it is complete, and cleaning two runs of rows
      one after the other is cleaning them together. */
  lemma CleanKeepsCompleteRows(a: seq<Row>, b: seq<Row>, r: Row)
    ensures Clean([r]) == if Complete(r) then [ToBar(r)] else []
    ensures Clean(a + b) == Clean(a) + Clean(b)
  {
    assert [r][1..] == [];
    FilterAppend(a, b, Complete);
  }

  function TakeProfitLevel(buy: real, takeProfitPct: real): real {
    buy * (1.0 + takeProfitPct / 100.0)
  }

  function StopLossLevel(buy: real, stopLossPct: real): real {
    buy * (1.0 - stopLossPct / 100.0)
  }

  /** A NaN high or low never compares true. */
  predicate HitsTakeProfit(b: Bar, level: real) {
    b.high.Some? && b.high.value >= level
  }

  predicate HitsStopLoss(b: Bar, level: real) {
    b.low.Some? && b.low.value <= level
  }

  /** The first day `i + j'` with `j <= j' <= h` that touches a level; take-profit
      is checked first. */
  function FirstExit(df: seq<Bar>, i: nat, h: nat, tp: real, sl: real, j: nat): (e: Option<Exit>)
    requires 1 <= j && i + h < |df|
    ensures e.Some? ==> i + j <= e.value.row <= i + h
    ensures e.Some? ==> forall k :: i + j <= k < e.value.row ==> !HitsTakeProfit(df[k], tp) && !HitsStopLoss(df[k], sl)
    ensures e.Some? ==> (e.value.reason == TakeProfitHit && e.value.price == tp && HitsTakeProfit(df[e.value.row], tp)) ||
                        (e.value.reason == StopLossHit && e.value.price == sl && HitsStopLoss(df[e.value.row], sl) &&
                         !HitsTakeProfit(df[e.value.row], tp))
    ensures e.None? ==> forall k :: i + j <= k <= i + h ==> !HitsTakeProfit(df[k], tp) && !HitsStopLoss(df[k], sl)
    decreases h + 1 - j
  {
    if j > h then None
    else if HitsTakeProfit(df[i + j], tp) then Some(Exit(i + j, tp, TakeProfitHit))
    else if HitsStopLoss(df[i + j], sl) then Some(Exit(i + j, sl, StopLossHit))
    else FirstExit(df, i, h, tp, sl, j + 1)
  }

  /** The exit of the trade entered at row `i`: strictly later than the entry when
      `h > 0` and at most `h` rows on; no day before it touched a level; a level
      exit sells at that level, take-profit winning a day that touches both; with
      no level touched, the sale is at the close `h` rows on. */
  function ExitOf(df: seq<Bar>, i: nat, h: nat, stopLossPct: real, takeProfitPct: real): (e: Exit)
    requires i + h < |df|
    ensures i <= e.row <= i + h && (h > 0 ==> i < e.row)
    ensures var tp := TakeProfitLevel(df[i].close, takeProfitPct);
            var sl := StopLossLevel(df[i].close, stopLossPct);
            (forall k :: i < k < e.row ==> !HitsTakeProfit(df[k], tp) && !HitsStopLoss(df[k], sl)) &&
            (e.reason == TakeProfitHit ==> e.price == tp && HitsTakeProfit(df[e.row], tp)) &&
            (e.reason == StopLossHit ==> e.price == sl && HitsStopLoss(df[e.row], sl) && !HitsTakeProfit(df[e.row], tp)) &&
            (e.reason.HeldFor? ==>
               e.row == i + h && e.price == df[i + h].close && e.reason.days == h &&
               forall k :: i < k <= i + h ==> !HitsTakeProfit(df[k], tp) && !HitsStopLoss(df[k], sl))
  {
    var buy := df[i].close;
    match FirstExit(df, i, h, TakeProfitLevel(buy, takeProfitPct), StopLossLevel(buy, stopLossPct), 1)
    case Some(e) => e
    case None => Exit(i + h, df[i + h].close, HeldFor(h))
  }

  /** `((sell - buy) / buy) * 100`. */
  function ReturnPct(buy: real, sell: real): Option<real> {
    if buy == 0.0 then None else Some((sell - buy) / buy * 100.0)
  }

  function TradeAt(df: seq<Bar>, i: nat, h: nat, stopLossPct: real, takeProfitPct: real): Trade
    requires i + h < |df|
  {
    var e := ExitOf(df, i, h, stopLossPct, takeProfitPct);
    Trade(df[i].date, df[e.row].date, df[i].close, e.price, ReturnPct(df[i].close, e.price), e.reason)
  }

  /** The entry rows among the first `n`: those whose score reaches `minScore`, in order. */
  function Entries(df: seq<Bar>, minScore: real, n: nat): (es: seq<nat>)
    requires n <= |df|
    ensures forall k :: 0 <= k < |es| ==> es[k] < n
  {
    if n == 0 then []
    else Entries(df, minScore, n - 1) + (if df[n - 1].score >= minScore then [n - 1] else [])
  }

  /** A trade opens at row `i` exactly when `i < n` and its score reaches the
      threshold, and the entries come in increasing row order. */
  lemma {:induction false} EntriesAreQualifyingRows(df: seq<Bar>, minScore: real, n: nat)
    requires n <= |df|
    ensures var es := Entries(df, minScore, n);
            |es| <= n &&
            (forall k :: 0 <= k < |es| ==> df[es[k]].score >= minScore) &&
            (forall k, l :: 0 <= k < l < |es| ==> es[k] < es[l]) &&
            (forall i :: 0 <= i < n && df[i].score >= minScore ==> i in es)
  {
    if n > 0 {
      EntriesAreQualifyingRows(df, minScore, n - 1);
    }
  }

  /** The trades opened at the first `n` rows, in row order: the list the outer
      loop has built after `n` rounds. */
  function TradesUpTo(df: seq<Bar>, minScore: real, n: nat, h: nat, stopLossPct: real, takeProfitPct: real): (ts: seq<Trade>)
    requires n + h <= |df|
  {
    if n == 0 then []
    else
      TradesUpTo(df, minScore, n - 1, h, stopLossPct, takeProfitPct) +
        (if df[n - 1].score >= minScore then [TradeAt(df, n - 1, h, stopLossPct, takeProfitPct)] else [])
  }

  /** The whole result list: nothing when fewer than `h + 1` rows are left,
      otherwise the trades of the first `len - h` rows. */
  function Backtest(rows: seq<Row>, h: nat, minScore: real, stopLossPct: real, takeProfitPct: real): (ts: seq<Trade>) {
    var df := Clean(rows);
    if |df| < h + 1 then [] else TradesUpTo(df, minScore, |df| - h, h, stopLossPct, takeProfitPct)
  }

  /** The result holds one trade per entry row, in entry order; so there are no
      trades when fewer than `h + 1` rows are left, and at most `len - h` otherwise. */
  lemma BacktestFollowsEntries(rows: seq<Row>, h: nat, minScore: real, stopLossPct: real, takeProfitPct: real)
    ensures var df := Clean(rows);
            var ts := Backtest(rows, h, minScore, stopLossPct, takeProfitPct);
            (|df| < h + 1 ==> ts == []) &&
            (|df| >= h + 1 ==>
               var es := Entries(df, minScore, |df| - h);
               |ts| == |es| <= |df| - h &&
               forall k :: 0 <= k < |ts| ==> ts[k] == TradeAt(df, es[k], h, stopLossPct, takeProfitPct))
  {
    var df := Clean(rows);
    if |df| >= h + 1 {
      TradesAtEntries(df, minScore, |df| - h, h, stopLossPct, takeProfitPct);
      EntriesAreQualifyingRows(df, minScore, |df| - h);
    }
  }

  lemma {:induction false} TradesAtEntries(df: seq<Bar>, minScore: real, n: nat, h: nat, stopLossPct: real, takeProfitPct: real)
    requires n + h <= |df|
    ensures var ts := TradesUpTo(df, minScore, n, h, stopLossPct, takeProfitPct);
            var es := Entries(df, minScore, n);
            |ts| == |es| &&
            forall k :: 0 <= k < |ts| ==> ts[k] == TradeAt(df, es[k], h, stopLossPct, takeProfitPct)
  {
    if n > 0 {
      TradesAtEntries(df, minScore, n - 1, h, stopLossPct, takeProfitPct);
    }
  }

  /** `backtest_strategy`. A negative holding period is not a `nat`: the source
      then indexes past the end of the frame and raises. */
  method BacktestStrategy(rows: seq<Row>, holdingDays: nat, minScore: real, stopLossPct: real, takeProfitPct: real)
    returns (results: seq<Trade>)
    ensures results == Backtest(rows, holdingDays, minScore, stopLossPct, takeProfitPct)
  {
    results := [];
    var df := Clean(rows);
    if |df| < holdingDays + 1 {
      return [];
    }
    var h := holdingDays;
    var i := 0;
    while i < |df| - h
      invariant 0 <= i <= |df| - h
      invariant results == TradesUpTo(df, minScore, i, h, stopLossPct, takeProfitPct)
    {
      if df[i].score >= minScore {
        var e := ScanHoldingPeriod(df, i, h, stopLossPct, takeProfitPct);
        var trade := Trade(df[i].date, df[e.row].date, df[i].close, e.price, ReturnPct(df[i].close, e.price), e.reason);
        results := results + [trade];
      }
      i := i + 1;
    }
  }

  /** The inner loop of `backtest_strategy` for the trade entered at row `i`:
      starts from holding to the end and stops at the first day touching a level. */
  method ScanHoldingPeriod(df: seq<Bar>, i: nat, h: nat, stopLossPct: real, takeProfitPct: real) returns (e: Exit)
    requires i + h < |df|
    ensures e == ExitOf(df, i, h, stopLossPct, takeProfitPct)
  {
    var buyPrice := df[i].close;
    var takeProfitPrice := TakeProfitLevel(buyPrice, takeProfitPct);
    var stopLossPrice := StopLossLevel(buyPrice, stopLossPct);
    var sellRow := i + h;
    var sellPrice := df[i + h].close;
    var exitReason := HeldFor(h);
    var j := 1;
    while j < h + 1
      invariant 1 <= j <= h + 1
      invariant FirstExit(df, i, h, takeProfitPrice, stopLossPrice, j) == FirstExit(df, i, h, takeProfitPrice, stopLossPrice, 1)
      invariant sellRow == i + h && sellPrice == df[i + h].close && exitReason == HeldFor(h)
    {
      if HitsTakeProfit(df[i + j], takeProfitPrice) {
        sellPrice := takeProfitPrice;
        sellRow := i + j;
        exitReason := TakeProfitHit;
        break;
      } else if HitsStopLoss(df[i + j], stopLossPrice) {
        sellPrice := stopLossPrice;
        sellRow := i + j;
        exitReason := StopLossHit;
        break;
      }
      j := j + 1;
    }
    e := Exit(sellRow, sellPrice, exitReason);
  }

  /** A take-profit exit returns exactly the take-profit percentage, and a stop-loss
      exit exactly minus the stop-loss percentage, whenever the buy price is not 0. */
  lemma ExitReturns(buy: real, stopLossPct: real, takeProfitPct: real)
    requires buy != 0.0
    ensures ReturnPct(buy, TakeProfitLevel(buy, takeProfitPct)) == Some(takeProfitPct)
    ensures ReturnPct(buy, StopLossLevel(buy, stopLossPct)) == Some(-stopLossPct)
  {
    Gain(buy, takeProfitPct);
    var loss := -stopLossPct;
    Gain(buy, loss);
    assert 1.0 - stopLossPct / 100.0 == 1.0 + loss / 100.0;
    assert StopLossLevel(buy, stopLossPct) == buy * (1.0 + loss / 100.0);
    assert (StopLossLevel(buy, stopLossPct) - buy) / buy * 100.0 == loss;
  }

  /** Selling at `buy * (1 + p / 100)` returns `p` percent. */
  lemma Gain(buy: real, p: real)
    requires buy != 0.0
    ensures (buy * (1.0 + p / 100.0) - buy) / buy * 100.0 == p
  {
    assert buy * (1.0 + p / 100.0) - buy == buy * (p / 100.0);
  }
}
