/** The indicator dispatcher of the analysis endpoint and the indicators it computes
    exactly (backend/indicators.py). A frame is its columns by name, in order; a NaN
    cell is `None`. Exponentially weighted means, rolling standard deviations,
    Python's `str` of a parameter, and the indicators built on them are given by the
    caller as `Numerics`. */
module Indicators {
  import opened Wrappers
  import D = Dict

  type Column = seq<Option<real>>

  type Columns = D.Dict<string, Column>

  /** The `params` of a request. */
  type Params = D.Dict<string, real>

  /** How an `ewm(...)` mean is parameterised. */
  datatype Smoothing = Span(span: real) | Alpha(alpha: real)

  /** The numerics left abstract: `ewm(...).mean()`, `rolling(window).std()`,
      `str` of a parameter, and the frame after the indicators not computed here
      (EMA, MACD, StdDev, BBands_%B, DEMA, StochRSI, Klinger, LinReg, TSI) have run
      on it. */
  datatype Numerics = Numerics(ewm: (Column, Smoothing) -> Column,
                               rollingStd: (Column, nat) -> Column,
                               show: real -> string,
                               other: (string, Params, Columns) -> Columns)

  /** No present cell is negative. */
  predicate NonNegative(c: Column) {
    forall i :: 0 <= i < |c| && c[i].Some? ==> c[i].value >= 0.0
  }

  /** Each cell negated. */
  function Negated(c: Column): (r: Column)
    ensures |r| == |c|
    ensures forall i :: 0 <= i < |c| ==> r[i] == if c[i].Some? then Some(-c[i].value) else None
  {
    seq(|c|, i requires 0 <= i < |c| => if c[i].Some? then Some(-c[i].value) else None)
  }

  /** An `ewm` mean is a weighted mean with non-negative weights: it keeps a
      non-negative series non-negative and a non-positive one non-positive. */
  ghost predicate SignPreserving(ewm: (Column, Smoothing) -> Column) {
    forall c, s :: (NonNegative(c) ==> NonNegative(ewm(c, s))) &&
                   (NonNegative(Negated(c)) ==> NonNegative(Negated(ewm(c, s))))
  }

  /** Cell `i` of a column, NaN past its end. */
  function At(c: Column, i: nat): Option<real> {
    if i < |c| then c[i] else None
  }

  /** `params.get(key, default)`. */
  function Param(params: Params, key: string, default: real): real {
    D.Get(params, key).GetOr(default)
  }

  /** The window `rolling(window=w)` accepts: an integer that is not negative. */
  function Window(w: real): (r: Option<nat>)
    ensures r.Some? <==> w >= 0.0 && w == w.Floor as real
    ensures r.Some? ==> r.value as real == w
  {
    if w >= 0.0 && w == w.Floor as real then Some(w.Floor as nat) else None
  }

  // Simple moving average

  function Sum(s: seq<real>): real {
    if s == [] then 0.0 else Sum(s[..|s| - 1]) + s[|s| - 1]
  }

  /** The values of a column that has no NaN. */
  function Values(cells: Column): (r: seq<real>)
    requires forall k :: 0 <= k < |cells| ==> cells[k].Some?
    ensures |r| == |cells| && forall k :: 0 <= k < |cells| ==> cells[k] == Some(r[k])
  {
    seq(|cells|, k requires 0 <= k < |cells| => cells[k].value)
  }

  /** The mean of a window, NaN when it holds a NaN. */
  function Mean(cells: Column): (m: Option<real>)
    requires cells != []
    ensures m.Some? <==> forall k :: 0 <= k < |cells| ==> cells[k].Some?
    ensures m.Some? ==> m.value * (|cells| as real) == Sum(Values(cells))
  {
    if forall k :: 0 <= k < |cells| ==> cells[k].Some? then
      Some(Sum(Values(cells)) / (|cells| as real))
    else None
  }

  /** `rolling(window=w).mean()`: NaN for the first w - 1 rows (every row when w is
      0), then the mean of the last w cells, NaN when one of them is. */
  function RollingMean(close: Column, w: nat): (r: Column)
    ensures |r| == |close|
    ensures forall i :: 0 <= i < |close| && (w == 0 || i + 1 < w) ==> r[i].None?
    ensures forall i :: 0 <= i < |close| && 0 < w <= i + 1 ==>
              r[i] == Mean(close[i + 1 - w..i + 1]) &&
              (r[i].Some? <==> forall k :: i + 1 - w <= k <= i ==> close[k].Some?)
  {
    seq(|close|, i requires 0 <= i < |close| =>
      if w == 0 || i + 1 < w then None else Mean(close[i + 1 - w..i + 1]))
  }

  /** `calculate_sma`: the column "SMA_<period>" (period 20 by default); a period
      that is not a window raises. */
  function Sma(cols: Columns, params: Params, num: Numerics): (r: Option<Columns>)
    ensures r.Some? <==> D.Get(cols, "Close").Some? && Window(Param(params, "period", 20.0)).Some?
    ensures r.Some? ==>
              var period := Param(params, "period", 20.0);
              r.value == D.Put(cols, "SMA_" + num.show(period),
                               RollingMean(D.Get(cols, "Close").value, Window(period).value))
  {
    var period := Param(params, "period", 20.0);
    match D.Get(cols, "Close")
    case None => None
    case Some(close) =>
      match Window(period)
      case None => None
      case Some(w) => Some(D.Put(cols, "SMA_" + num.show(period), RollingMean(close, w)))
  }

  // Relative strength index

  /** `close.diff()`: NaN on the first row and next to a NaN. */
  function Diff(close: Column): (d: Column)
    ensures |d| == |close|
    ensures forall i :: 0 <= i < |close| ==>
              d[i] == if i > 0 && close[i].Some? && close[i - 1].Some?
                      then Some(close[i].value - close[i - 1].value) else None
  {
    seq(|close|, i requires 0 <= i < |close| =>
      if i > 0 && close[i].Some? && close[i - 1].Some? then Some(close[i].value - close[i - 1].value) else None)
  }

  /** `clip(lower=0)`. */
  function Gains(d: Column): (r: Column)
    ensures |r| == |d| && NonNegative(r)
  {
    seq(|d|, i requires 0 <= i < |d| => if d[i].Some? then Some(if d[i].value < 0.0 then 0.0 else d[i].value) else None)
  }

  /** `clip(upper=0)`. */
  function Losses(d: Column): (r: Column)
    ensures |r| == |d| && NonNegative(Negated(r))
  {
    seq(|d|, i requires 0 <= i < |d| => if d[i].Some? then Some(if d[i].value > 0.0 then 0.0 else d[i].value) else None)
  }

  /** One RSI cell from the smoothed gain and loss: 100 - 100 / (1 + gain / loss),
      with 50 wherever the ratio is NaN or infinite (a NaN input or a zero loss). */
  function RsiCell(gain: Option<real>, loss: Option<real>): (r: real)
    requires gain.Some? ==> gain.value >= 0.0
    requires loss.Some? ==> loss.value >= 0.0
    ensures gain.None? || loss.None? || loss.value == 0.0 ==> r == 50.0
    ensures gain.Some? && loss.Some? && loss.value > 0.0 ==>
              r * (gain.value + loss.value) == 100.0 * gain.value
    ensures 0.0 <= r <= 100.0
  {
    if gain.None? || loss.None? || loss.value == 0.0 then 50.0
    else
      var g, l := gain.value, loss.value;
      var rs := g / l;
      RsiClosedForm(g, l, rs);
      100.0 - 100.0 / (1.0 + rs)
  }

  /** The textbook form: 100 - 100 / (1 + g / l) is 100 g / (g + l) and lies in [0, 100]. */
  lemma RsiClosedForm(g: real, l: real, rs: real)
    requires g >= 0.0 && l > 0.0 && rs == g / l
    ensures (100.0 - 100.0 / (1.0 + rs)) * (g + l) == 100.0 * g
    ensures 0.0 <= 100.0 - 100.0 / (1.0 + rs) <= 100.0
  {
    var q := 100.0 / (1.0 + rs);
    assert rs * l == g;
    assert (1.0 + rs) * l == g + l;
    assert q * (1.0 + rs) == 100.0;
    assert q * (g + l) == q * (1.0 + rs) * l == 100.0 * l;
    assert 0.0 < q <= 100.0 by {
      assert 1.0 + rs >= 1.0;
    }
  }

  /** The RSI column over the smoothed gains and losses. */
  function RsiColumn(gain: Column, loss: Column, rows: nat): (r: Column)
    requires NonNegative(gain) && NonNegative(loss)
    ensures |r| == rows
    ensures forall i :: 0 <= i < rows ==> r[i] == Some(RsiCell(At(gain, i), At(loss, i)))
  {
    seq(rows, i requires 0 <= i < rows => Some(RsiCell(At(gain, i), At(loss, i))))
  }

  /** The gains smoothed with alpha = 1 / period. */
  function SmoothedGain(close: Column, period: real, num: Numerics): Column
    requires period >= 1.0
  {
    num.ewm(Gains(Diff(close)), Alpha(1.0 / period))
  }

  /** The losses smoothed with alpha = 1 / period, as non-negative amounts. */
  function SmoothedLoss(close: Column, period: real, num: Numerics): Column
    requires period >= 1.0
  {
    Negated(num.ewm(Losses(Diff(close)), Alpha(1.0 / period)))
  }

  /** `calculate_rsi`: the column "RSI" (period 14 by default), smoothing with
      alpha = 1 / period; a period below 1 raises. */
  function Rsi(cols: Columns, params: Params, num: Numerics): (r: Option<Columns>)
    requires SignPreserving(num.ewm)
    ensures r.Some? <==> D.Get(cols, "Close").Some? && Param(params, "period", 14.0) >= 1.0
    ensures r.Some? ==>
              var close := D.Get(cols, "Close").value;
              var period := Param(params, "period", 14.0);
              var gain, loss := SmoothedGain(close, period, num), SmoothedLoss(close, period, num);
              NonNegative(gain) && NonNegative(loss) &&
              r.value == D.Put(cols, "RSI", RsiColumn(gain, loss, |close|))
  {
    var period := Param(params, "period", 14.0);
    match D.Get(cols, "Close")
    case None => None
    case Some(close) =>
      if period < 1.0 then None
      else
        var gain := SmoothedGain(close, period, num);
        var loss := SmoothedLoss(close, period, num);
        Some(D.Put(cols, "RSI", RsiColumn(gain, loss, |close|)))
  }

  /** The "RSI" column `calculate_rsi` writes has one cell per row of Close, and
      every cell is defined and lies in [0, 100]. */
  lemma RsiBounded(cols: Columns, params: Params, num: Numerics)
    requires SignPreserving(num.ewm) && Rsi(cols, params, num).Some?
    ensures var close := D.Get(cols, "Close").value;
            var rsi := D.Get(Rsi(cols, params, num).value, "RSI");
            rsi.Some? && |rsi.value| == |close| &&
            forall i :: 0 <= i < |close| ==> rsi.value[i].Some? && 0.0 <= rsi.value[i].value <= 100.0
  {
    var close := D.Get(cols, "Close").value;
    var period := Param(params, "period", 14.0);
    var gain, loss := SmoothedGain(close, period, num), SmoothedLoss(close, period, num);
    D.PutGet(cols, "RSI", RsiColumn(gain, loss, |close|), "RSI");
  }

  // EMA crossover

  /** Whether the fast mean is above the slow one on row `i` (a NaN is not above). */
  predicate Above(fast: Column, slow: Column, i: nat) {
    At(fast, i).Some? && At(slow, i).Some? && At(fast, i).value > At(slow, i).value
  }

  /** `np.where(fast > slow, 1, -1)`. */
  function Signal(fast: Column, slow: Column, i: nat): int {
    if Above(fast, slow, i) then 1 else -1
  }

  function Clip(x: int, lo: int, hi: int): int {
    if x < lo then lo else if x > hi then hi else x
  }

  function Abs(x: int): int {
    if x < 0 then -x else x
  }

  /** `d.clip(0, 1) - abs(d.clip(-1, 0))` of the signal's difference `d`, with the
      first row's NaN difference filled with 0. */
  function CrossCell(fast: Column, slow: Column, i: nat): (r: int)
    ensures r == 1 <==> i > 0 && !Above(fast, slow, i - 1) && Above(fast, slow, i)
    ensures r == -1 <==> i > 0 && Above(fast, slow, i - 1) && !Above(fast, slow, i)
    ensures r == 0 || r == 1 || r == -1
  {
    var d := if i == 0 then 0 else Signal(fast, slow, i) - Signal(fast, slow, i - 1);
    Clip(d, 0, 1) - Abs(Clip(d, -1, 0))
  }

  /** The crossover column: 1 where fast crosses above slow, -1 where it crosses
      below, 0 elsewhere and on the first row. */
  function CrossColumn(fast: Column, slow: Column, rows: nat): (r: Column)
    ensures |r| == rows
    ensures forall i :: 0 <= i < rows ==> r[i] == Some(CrossCell(fast, slow, i) as real)
  {
    seq(rows, i requires 0 <= i < rows => Some(CrossCell(fast, slow, i) as real))
  }

  /** `calculate_ema_cross`: the column "EMACross_<fast>_<slow>" (10 and 30 by
      default); a span below 1 raises. */
  function EmaCross(cols: Columns, params: Params, num: Numerics): (r: Option<Columns>)
    ensures r.Some? <==> D.Get(cols, "Close").Some? &&
                         Param(params, "fast", 10.0) >= 1.0 && Param(params, "slow", 30.0) >= 1.0
    ensures r.Some? ==>
              var fast := Param(params, "fast", 10.0);
              var slow := Param(params, "slow", 30.0);
              var close := D.Get(cols, "Close").value;
              r.value == D.Put(cols, "EMACross_" + num.show(fast) + "_" + num.show(slow),
                               CrossColumn(num.ewm(close, Span(fast)), num.ewm(close, Span(slow)), |close|))
  {
    var fast := Param(params, "fast", 10.0);
    var slow := Param(params, "slow", 30.0);
    match D.Get(cols, "Close")
    case None => None
    case Some(close) =>
      if fast < 1.0 || slow < 1.0 then None
      else
        var column := CrossColumn(num.ewm(close, Span(fast)), num.ewm(close, Span(slow)), |close|);
        Some(D.Put(cols, "EMACross_" + num.show(fast) + "_" + num.show(slow), column))
  }

  // Bollinger bands

  /** `m + s * k`, NaN where either input is. */
  function Shifted(m: Option<real>, s: Option<real>, k: real): Option<real> {
    if m.Some? && s.Some? then Some(m.value + s.value * k) else None
  }

  /** `ma ± std * k`, cell by cell. */
  function Band(ma: Column, std: Column, k: real, rows: nat): (r: Column)
    ensures |r| == rows
    ensures forall i :: 0 <= i < rows ==> r[i] == Shifted(At(ma, i), At(std, i), k)
  {
    seq(rows, i requires 0 <= i < rows => Shifted(At(ma, i), At(std, i), k))
  }

  /** The bands are symmetric around the middle band: both lie std * k away from it,
      and both are defined exactly when the middle band and the deviation are. */
  lemma BandsSymmetric(ma: Column, std: Column, k: real, rows: nat, i: nat)
    requires i < rows
    ensures var upper, lower := Band(ma, std, k, rows), Band(ma, std, -k, rows);
            (upper[i].Some? <==> lower[i].Some?) &&
            (upper[i].Some? <==> At(ma, i).Some? && At(std, i).Some?) &&
            (upper[i].Some? ==>
               upper[i].value - At(ma, i).value == At(ma, i).value - lower[i].value == At(std, i).value * k)
  {
  }

  /** `calculate_bbands`: the columns "BB_Upper", "BB_Middle" and "BB_Lower" (period
      20 and std_dev 2 by default); a period that is not a window raises. */
  function BBands(cols: Columns, params: Params, num: Numerics): (r: Option<Columns>)
    ensures r.Some? <==> D.Get(cols, "Close").Some? && Window(Param(params, "period", 20.0)).Some?
    ensures r.Some? ==>
              var close := D.Get(cols, "Close").value;
              var w := Window(Param(params, "period", 20.0)).value;
              var k := Param(params, "std_dev", 2.0);
              var ma := RollingMean(close, w);
              var std := num.rollingStd(close, w);
              r.value == D.Put(D.Put(D.Put(cols, "BB_Upper", Band(ma, std, k, |close|)),
                                     "BB_Middle", ma),
                               "BB_Lower", Band(ma, std, -k, |close|))
  {
    var k := Param(params, "std_dev", 2.0);
    match D.Get(cols, "Close")
    case None => None
    case Some(close) =>
      match Window(Param(params, "period", 20.0))
      case None => None
      case Some(w) =>
        var ma := RollingMean(close, w);
        var std := num.rollingStd(close, w);
        Some(D.Put(D.Put(D.Put(cols, "BB_Upper", Band(ma, std, k, |close|)), "BB_Middle", ma),
                   "BB_Lower", Band(ma, std, -k, |close|)))
  }

  // On-balance volume

  function Sign(x: real): real {
    if x > 0.0 then 1.0 else if x < 0.0 then -1.0 else 0.0
  }

  /** `sign(close.diff()) * volume` on row `i`, with NaN filled with 0. */
  function ObvStep(close: Column, volume: Column, i: nat): real
    requires i < |close|
  {
    if i > 0 && close[i].Some? && close[i - 1].Some? && At(volume, i).Some? then
      Sign(close[i].value - close[i - 1].value) * At(volume, i).value
    else 0.0
  }

  /** `cumsum()` of the steps of the first `n` rows. */
  function RunningObv(close: Column, volume: Column, n: nat): (r: seq<real>)
    requires n <= |close|
    ensures |r| == n
    ensures n > 0 ==> r[0] == 0.0
    ensures forall i :: 0 < i < n ==> r[i] == r[i - 1] + ObvStep(close, volume, i)
  {
    if n == 0 then []
    else
      var prefix := RunningObv(close, volume, n - 1);
      prefix + [if n == 1 then 0.0 else prefix[n - 2] + ObvStep(close, volume, n - 1)]
  }

  /** OBV moves by the whole volume, up or down, or not at all, from one row to the next. */
  lemma ObvMovesByVolume(close: Column, volume: Column, i: nat)
    requires 0 < i < |close|
    ensures var obv := RunningObv(close, volume, |close|);
            var v := At(volume, i);
            obv[i] == obv[i - 1] ||
            (v.Some? && (obv[i] == obv[i - 1] + v.value || obv[i] == obv[i - 1] - v.value))
  {
    var obv := RunningObv(close, volume, |close|);
    assert obv[i] == obv[i - 1] + ObvStep(close, volume, i);
  }

  /** `calculate_obv`: the column "OBV"; a frame without Volume raises. */
  function Obv(cols: Columns, params: Params): (r: Option<Columns>)
    ensures r.Some? <==> D.Get(cols, "Close").Some? && D.Get(cols, "Volume").Some?
    ensures r.Some? ==>
              var close := D.Get(cols, "Close").value;
              var obv := RunningObv(close, D.Get(cols, "Volume").value, |close|);
              r.value == D.Put(cols, "OBV", seq(|close|, i requires 0 <= i < |close| => Some(obv[i])))
  {
    match D.Get(cols, "Close")
    case None => None
    case Some(close) =>
      match D.Get(cols, "Volume")
      case None => None
      case Some(volume) =>
        var obv := RunningObv(close, volume, |close|);
        Some(D.Put(cols, "OBV", seq(|close|, i requires 0 <= i < |close| => Some(obv[i]))))
  }

  // Dispatcher

  /** The names of `INDICATOR_FUNCTIONS`. */
  const Names: seq<string> := ["SMA", "EMA", "RSI", "MACD", "BBands", "OBV", "StdDev", "BBands_%B",
                               "DEMA", "EMACross", "StochRSI", "Klinger", "LinReg", "TSI"]

  /** One element of `indicators_to_calc`; `name` is `None` when absent. */
  datatype Request = Request(name: Option<string>, params: Params)

  /** Whether the dispatcher runs a request: its name is truthy and in the table. */
  predicate Known(req: Request) {
    req.name.Some? && req.name.value in Names
  }

  /** The frame after one calculation, or `None` when it raised. */
  function Calculate(name: string, params: Params, cols: Columns, num: Numerics): Option<Columns>
    requires SignPreserving(num.ewm)
  {
    if name == "SMA" then Sma(cols, params, num)
    else if name == "RSI" then Rsi(cols, params, num)
    else if name == "BBands" then BBands(cols, params, num)
    else if name == "OBV" then Obv(cols, params)
    else if name == "EMACross" then EmaCross(cols, params, num)
    else Some(num.other(name, params, cols))
  }

  /** One turn of the loop: an unknown request is skipped, and a raising
      calculation is logged and leaves the frame as it was. */
  function Step(cols: Columns, req: Request, num: Numerics): (r: Columns)
    requires SignPreserving(num.ewm)
    ensures !Known(req) ==> r == cols
    ensures Known(req) && Calculate(req.name.value, req.params, cols, num).None? ==> r == cols
    ensures Known(req) && Calculate(req.name.value, req.params, cols, num).Some? ==> r == Calculate(req.name.value, req.params, cols, num).value
  {
    if Known(req) then Calculate(req.name.value, req.params, cols, num).GetOr(cols) else cols
  }

  /** The frame after the requests, in order. */
  function Calculated(cols: Columns, reqs: seq<Request>, num: Numerics): Columns
    requires SignPreserving(num.ewm)
  {
    if reqs == [] then cols else Step(Calculated(cols, reqs[..|reqs| - 1], num), reqs[|reqs| - 1], num)
  }

  /** The requests run one after the other: running a list is running its first
      part, then the rest on the result. */
  lemma {:induction false} CalculatedAppend(cols: Columns, a: seq<Request>, b: seq<Request>, num: Numerics)
    requires SignPreserving(num.ewm)
    ensures Calculated(cols, a + b, num) == Calculated(Calculated(cols, a, num), b, num)
  {
    if b != [] {
      CalculatedAppend(cols, a, b[..|b| - 1], num);
      assert (a + b)[..|a + b| - 1] == a + b[..|b| - 1];
    } else {
      assert a + b == a;
    }
  }

  /** Requests with unknown names change nothing. */
  lemma {:induction false} UnknownChangeNothing(cols: Columns, reqs: seq<Request>, num: Numerics)
    requires SignPreserving(num.ewm)
    requires forall i :: 0 <= i < |reqs| ==> !Known(reqs[i])
    ensures Calculated(cols, reqs, num) == cols
  {
    if reqs != [] {
      UnknownChangeNothing(cols, reqs[..|reqs| - 1], num);
    }
  }

  /** A calculation that raises is skipped and the later requests still run. */
  lemma FailureIsSkipped(cols: Columns, before: seq<Request>, req: Request, after: seq<Request>, num: Numerics)
    requires SignPreserving(num.ewm)
    requires Known(req) && Calculate(req.name.value, req.params, Calculated(cols, before, num), num).None?
    ensures Calculated(cols, before + [req] + after, num) == Calculated(Calculated(cols, before, num), after, num)
  {
    CalculatedAppend(cols, before + [req], after, num);
  }

  /** A frame whose columns the dispatcher reads and writes. */
  class Frame {
    var columns: Columns
    /** The number of rows. */
    const rows: nat

    constructor(columns: Columns, rows: nat)
      ensures this.columns == columns && this.rows == rows
    {
      this.columns := columns;
      this.rows := rows;
    }

    /** `df.empty`: no rows or no columns. */
    predicate Empty()
      reads this
    {
      rows == 0 || columns == []
    }

    /** `df.copy()`. */
    method Copy() returns (f: Frame)
      ensures fresh(f) && f.columns == columns && f.rows == rows
    {
      f := new Frame(columns, rows);
    }

    /** `df_out = calculation_function(df_out, params)` inside its `try`: the
        calculation writes its columns in place, and when it raises the frame is
        left as it was. */
    method Apply(name: string, params: Params, num: Numerics)
      requires SignPreserving(num.ewm)
      modifies this`columns
      ensures columns == Calculate(name, params, old(columns), num).GetOr(old(columns))
    {
      var result := Calculate(name, params, columns, num);
      if result.Some? {
        columns := result.value;
      }
    }
  }

  /** `calculate_indicators`: an empty frame or one without Close comes back as is;
      otherwise a copy is run through the requests in order, and the caller's frame
      is not changed. */
  method CalculateIndicators(df: Frame, reqs: seq<Request>, num: Numerics) returns (out: Frame)
    requires SignPreserving(num.ewm)
    ensures df.columns == old(df.columns)
    ensures df.Empty() || "Close" !in D.Keys(df.columns) ==> out == df
    ensures !df.Empty() && "Close" in D.Keys(df.columns) ==>
              fresh(out) && out.rows == df.rows && out.columns == Calculated(df.columns, reqs, num)
  {
    if df.Empty() || "Close" !in D.Keys(df.columns) {
      return df;
    }
    out := df.Copy();
    var i := 0;
    while i < |reqs|
      invariant i <= |reqs|
      invariant fresh(out) && out.rows == df.rows
      invariant out.columns == Calculated(df.columns, reqs[..i], num)
    {
      var req := reqs[i];
      assert reqs[..i + 1][..i] == reqs[..i];
      assert Calculated(df.columns, reqs[..i + 1], num) == Step(Calculated(df.columns, reqs[..i], num), req, num);
      if Known(req) {
        out.Apply(req.name.value, req.params, num);
      }
      i := i + 1;
    }
    assert reqs[..|reqs|] == reqs;
  }
}
