/** The price change shown above the chart (frontend/src/App.js, `ChartPage`). */
module PriceChange {
  import opened Wrappers

  /** A chart row; a missing field is `None`. */
  datatype Bar = Bar(open: Option<real>, close: Option<real>)

  datatype Change = Change(amount: real, percent: real, isPositive: bool)

  const Flat := Change(0.0, 0.0, true)

  /** A JavaScript number in a condition: missing values and zero are false. */
  predicate Truthy(x: Option<real>) {
    x.Some? && x.value != 0.0
  }

  /** The change from `base` to `last`; the percentage is 0 unless `base` is positive. */
  function Relative(base: real, last: real): (c: Change)
    ensures c.amount == last - base
    ensures c.isPositive <==> last >= base
    ensures base > 0.0 ==> c.percent * base == c.amount * 100.0
    ensures base <= 0.0 ==> c.percent == 0.0
  {
    var change := last - base;
    Change(change, if base > 0.0 then change / base * 100.0 else 0.0, change >= 0.0)
  }

  /** The change for the selected period: on "1D" with a current price and a
      previous close, between those two; otherwise from the first row's open to
      the last row's close, or no change when there are fewer than two rows or
      either price is missing. */
  function PeriodChange(timeFilter: string, currentPrice: Option<real>, previousClose: Option<real>, data: seq<Bar>): (c: Change)
    ensures c.isPositive <==> c.amount >= 0.0
    ensures c.percent > 0.0 ==> c.amount > 0.0
    ensures c.percent < 0.0 ==> c.amount < 0.0
  {
    if timeFilter == "1D" && Truthy(currentPrice) && Truthy(previousClose) then
      Relative(previousClose.value, currentPrice.value)
    else if |data| < 2 then Flat
    else if data[0].open.None? || data[|data| - 1].close.None? then Flat
    else Relative(data[0].open.value, data[|data| - 1].close.value)
  }

  /** On "1D" with a truthy current price and previous close, the change runs
      from the previous close to the current price. */
  lemma OneDayUsesQuote(currentPrice: Option<real>, previousClose: Option<real>, data: seq<Bar>)
    requires Truthy(currentPrice) && Truthy(previousClose)
    ensures PeriodChange("1D", currentPrice, previousClose, data) == Relative(previousClose.value, currentPrice.value)
  {
  }

  /** Outside the quote case the change runs from the first row's open to the last
      row's close, whatever the view. */
  lemma PeriodUsesFirstOpenAndLastClose(timeFilter: string, currentPrice: Option<real>, previousClose: Option<real>, data: seq<Bar>)
    requires !(timeFilter == "1D" && Truthy(currentPrice) && Truthy(previousClose))
    requires |data| >= 2 && data[0].open.Some? && data[|data| - 1].close.Some?
    ensures PeriodChange(timeFilter, currentPrice, previousClose, data) == Relative(data[0].open.value, data[|data| - 1].close.value)
  {
  }

  /** Outside the quote case, fewer than two rows or a missing first open or last
      close give no change. */
  lemma TooFewPricesIsFlat(timeFilter: string, currentPrice: Option<real>, previousClose: Option<real>, data: seq<Bar>)
    requires !(timeFilter == "1D" && Truthy(currentPrice) && Truthy(previousClose))
    requires |data| < 2 || data[0].open.None? || data[|data| - 1].close.None?
    ensures PeriodChange(timeFilter, currentPrice, previousClose, data) == Flat
  {
  }

  /** A missing or zero current price or previous close on "1D" falls back to the
      rows, as any other view does. */
  lemma OneDayNeedsPreviousClose(currentPrice: Option<real>, previousClose: Option<real>, data: seq<Bar>)
    requires !Truthy(currentPrice) || !Truthy(previousClose)
    ensures PeriodChange("1D", currentPrice, previousClose, data) == PeriodChange("1W", currentPrice, previousClose, data)
  {
  }
}
