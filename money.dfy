/** Currency of a ticker and the conversion of its price into rupees
    (frontend/src/App.js: `getCurrency` and the `isForeign ? exchangeRate : 1` factor). */
module Money {
  import opened Text

  /** A ticker quoted in rupees: its upper-cased form ends with ".NS". */
  predicate IsIndian(ticker: string) {
    EndsWith(ToUpper(ticker), ".NS")
  }

  datatype Currency = Rupee | Dollar

  /** `getCurrency`: the currency sign shown next to a ticker's prices. */
  function CurrencyOf(ticker: string): Currency {
    if IsIndian(ticker) then Rupee else Dollar
  }

  /** Rupees per unit of the ticker's quote currency. */
  function Rate(ticker: string, exchangeRate: real): (r: real)
    ensures exchangeRate > 0.0 ==> r > 0.0
    ensures r != 1.0 ==> r == exchangeRate && CurrencyOf(ticker) == Dollar
  {
    if IsIndian(ticker) then 1.0 else exchangeRate
  }

  /** Rupee value of `quantity` shares at `price`. */
  function InrValue(ticker: string, price: real, quantity: real, exchangeRate: real): (v: real)
    ensures price >= 0.0 && quantity >= 0.0 && exchangeRate >= 0.0 ==> v >= 0.0
    ensures quantity == 0.0 || price == 0.0 ==> v == 0.0
  {
    price * quantity * Rate(ticker, exchangeRate)
  }

  /** The rupee rate and the currency sign agree: a ticker is converted at the
      exchange rate exactly when its prices are shown in dollars. */
  lemma RateFollowsCurrency(ticker: string, exchangeRate: real)
    ensures Rate(ticker, exchangeRate) == (if CurrencyOf(ticker) == Rupee then 1.0 else exchangeRate)
  {
  }

  /** ".NS" is recognised whatever the case of its letters: a ticker is Indian
      exactly when it ends with a dot, an "n" or "N", and an "s" or "S". */
  lemma {:induction false} SuffixIgnoresCase(ticker: string)
    ensures IsIndian(ticker) <==>
              |ticker| >= 3 && ticker[|ticker| - 3] == '.' &&
              ticker[|ticker| - 2] in "nN" && ticker[|ticker| - 1] in "sS"
  {
    var u := ToUpper(ticker);
    if |ticker| >= 3 {
      assert u[|u| - 3..] == [u[|u| - 3], u[|u| - 2], u[|u| - 1]];
    }
  }
}
