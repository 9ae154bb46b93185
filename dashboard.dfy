/** The portfolio summary on the home page (frontend/src/App.js, `HomePage`): total
    profit or loss, today's change and the amount invested, in rupees, over the
    holdings the quote service returned a live price for. */
module Dashboard {
  import opened Wrappers
  import opened Money
  import L = Ledger

  /** The quote service's entry for one ticker. */
  datatype LiveInfo = LiveInfo(currentPrice: real, change: real)

  datatype Metrics = Metrics(totalPL: real, todayPL: real, totalInvested: real)

  /** Rupees paid for the quoted holdings. */
  function Invested(p: seq<L.Holding>, live: map<string, LiveInfo>, rate: real): real {
    if p == [] then 0.0
    else
      var h := p[|p| - 1];
      Invested(p[..|p| - 1], live, rate) +
        (if h.ticker in live then InrValue(h.ticker, h.purchasePrice, h.quantity, rate) else 0.0)
  }

  /** Rupee value of the quoted holdings at the live prices. */
  function CurrentValue(p: seq<L.Holding>, live: map<string, LiveInfo>, rate: real): real {
    if p == [] then 0.0
    else
      var h := p[|p| - 1];
      CurrentValue(p[..|p| - 1], live, rate) +
        (if h.ticker in live then InrValue(h.ticker, live[h.ticker].currentPrice, h.quantity, rate) else 0.0)
  }

  /** Today's rupee change of the quoted holdings. */
  function DayChange(p: seq<L.Holding>, live: map<string, LiveInfo>, rate: real): real {
    if p == [] then 0.0
    else
      var h := p[|p| - 1];
      DayChange(p[..|p| - 1], live, rate) +
        (if h.ticker in live then InrValue(h.ticker, live[h.ticker].change, h.quantity, rate) else 0.0)
  }

  /** The running profit the page accumulates, holding by holding. */
  function ProfitLoss(p: seq<L.Holding>, live: map<string, LiveInfo>, rate: real): real {
    if p == [] then 0.0
    else
      var h := p[|p| - 1];
      ProfitLoss(p[..|p| - 1], live, rate) +
        (if h.ticker in live
         then InrValue(h.ticker, live[h.ticker].currentPrice, h.quantity, rate) - InrValue(h.ticker, h.purchasePrice, h.quantity, rate)
         else 0.0)
  }

  /** The effect that computes the metrics. `fetched` is the reply of the quote
      service, `None` when the request failed; then every total is zero. */
  method ComputeMetrics(p: seq<L.Holding>, fetched: Option<map<string, LiveInfo>>, exchangeRate: real) returns (m: Metrics)
    ensures fetched.None? ==> m == Metrics(0.0, 0.0, 0.0)
    ensures fetched.Some? ==>
              m.totalInvested == Invested(p, fetched.value, exchangeRate) &&
              m.totalPL == CurrentValue(p, fetched.value, exchangeRate) - Invested(p, fetched.value, exchangeRate) &&
              m.todayPL == DayChange(p, fetched.value, exchangeRate)
  {
    if fetched.None? {
      return Metrics(0.0, 0.0, 0.0);
    }
    var live := fetched.value;
    var totalPL := 0.0;
    var todayPL := 0.0;
    var totalInvested := 0.0;
    var i := 0;
    while i < |p|
      invariant 0 <= i <= |p|
      invariant totalInvested == Invested(p[..i], live, exchangeRate)
      invariant totalPL == ProfitLoss(p[..i], live, exchangeRate)
      invariant todayPL == DayChange(p[..i], live, exchangeRate)
    {
      var stock := p[i];
      assert p[..i + 1][..i] == p[..i];
      if stock.ticker in live {
        var liveInfo := live[stock.ticker];
        var rate := Rate(stock.ticker, exchangeRate);
        var investedAmount := stock.purchasePrice * stock.quantity * rate;
        var currentValue := liveInfo.currentPrice * stock.quantity * rate;
        var dayChange := liveInfo.change * stock.quantity * rate;
        totalInvested := totalInvested + investedAmount;
        totalPL := totalPL + (currentValue - investedAmount);
        todayPL := todayPL + dayChange;
      }
      i := i + 1;
    }
    assert p[..i] == p;
    ProfitIsValueMinusInvested(p, live, exchangeRate);
    m := Metrics(totalPL, todayPL, totalInvested);
  }

  /** The accumulated profit is the live value less what was paid. */
  lemma {:induction false} ProfitIsValueMinusInvested(p: seq<L.Holding>, live: map<string, LiveInfo>, rate: real)
    ensures ProfitLoss(p, live, rate) == CurrentValue(p, live, rate) - Invested(p, live, rate)
  {
    if p != [] {
      ProfitIsValueMinusInvested(p[..|p| - 1], live, rate);
    }
  }

  /** With non-negative quantities, prices and exchange rate the invested total is
      never negative. */
  lemma {:induction false} InvestedNonNegative(p: seq<L.Holding>, live: map<string, LiveInfo>, rate: real)
    requires rate >= 0.0
    requires forall i :: 0 <= i < |p| ==> p[i].quantity >= 0.0 && p[i].purchasePrice >= 0.0
    ensures Invested(p, live, rate) >= 0.0
  {
    if p != [] {
      InvestedNonNegative(p[..|p| - 1], live, rate);
      var h := p[|p| - 1];
      L.MulNonNegative(h.purchasePrice, h.quantity);
      L.MulNonNegative(h.purchasePrice * h.quantity, Rate(h.ticker, rate));
    }
  }

  /** Holdings without a live quote are skipped: when no holding is quoted, the
      invested total, the live value and today's change are all zero. */
  lemma {:induction false} UnquotedCountsNothing(p: seq<L.Holding>, live: map<string, LiveInfo>, rate: real)
    requires forall i :: 0 <= i < |p| ==> p[i].ticker !in live
    ensures Invested(p, live, rate) == 0.0 && CurrentValue(p, live, rate) == 0.0 && DayChange(p, live, rate) == 0.0
  {
    if p != [] {
      UnquotedCountsNothing(p[..|p| - 1], live, rate);
    }
  }
}
