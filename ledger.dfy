/** The paper-trading ledger of the web client (frontend/src/App.js): a list of
    holdings and a rupee balance, changed by the trade card, the sell modal, the
    chat assistant's trade handlers and the funds page. */
module Ledger {
  import opened Wrappers
  import opened Money

  /** One position: `{ id, ticker, quantity, purchasePrice }`, prices in the
      ticker's own currency. */
  datatype Holding = Holding(id: int, ticker: string, quantity: real, purchasePrice: real)

  /** What a ledger operation reports (the toast it shows). */
  datatype Outcome =
    | Done
    | InvalidQuantity     // "Please enter a valid quantity." / "Invalid quantity."
    | InsufficientFunds   // "Insufficient funds ..."
    | NotEnoughShares     // "You don't own enough shares ..."
    | InvalidAmount       // "Please enter a valid amount."
    | ExceedsFunds        // "Withdrawal amount cannot exceed available funds."

  ghost predicate UniqueTickers(p: seq<Holding>) {
    forall i, j :: 0 <= i < j < |p| ==> p[i].ticker != p[j].ticker
  }

  ghost predicate NonNegative(p: seq<Holding>) {
    forall i :: 0 <= i < |p| ==> p[i].quantity >= 0.0
  }

  ghost predicate AllPositive(p: seq<Holding>) {
    forall i :: 0 <= i < |p| ==> p[i].quantity > 0.0
  }

  /** Position of the first holding of `ticker`, as `portfolio.find` locates it. */
  function IndexOf(p: seq<Holding>, ticker: string): (r: Option<nat>)
    ensures r.Some? ==> r.value < |p| && p[r.value].ticker == ticker
    ensures r.Some? ==> forall i :: 0 <= i < r.value ==> p[i].ticker != ticker
    ensures r.None? ==> forall i :: 0 <= i < |p| ==> p[i].ticker != ticker
  {
    if p == [] then None
    else if p[0].ticker == ticker then Some(0)
    else match IndexOf(p[1..], ticker)
      case None => None
      case Some(k) => Some(k + 1)
  }

  /** Quantity-weighted average of the held price and the price paid now. When the
      combined quantity is zero the held price is kept (see the finding on
      `AveragePriceAsWritten`). */
  function AveragePrice(heldPrice: real, heldQuantity: real, price: real, quantity: real): (avg: real)
    ensures heldQuantity + quantity != 0.0 ==>
              avg * (heldQuantity + quantity) == heldPrice * heldQuantity + price * quantity
    ensures heldQuantity + quantity == 0.0 ==> avg == heldPrice
  {
    if heldQuantity + quantity == 0.0 then heldPrice
    else (heldPrice * heldQuantity + price * quantity) / (heldQuantity + quantity)
  }

  /** The average as App.js writes it, `(s.purchasePrice * s.quantity + price * quantity)
      / (s.quantity + quantity)`, with `None` standing for the NaN of `0 / 0`. */
  function AveragePriceAsWritten(heldPrice: real, heldQuantity: real, price: real, quantity: real): Option<real> {
    if heldQuantity + quantity == 0.0 then None
    else Some((heldPrice * heldQuantity + price * quantity) / (heldQuantity + quantity))
  }

  /** With non-negative quantities and something bought, the average lies between
      the held price and the new price. */
  lemma AverageBetween(heldPrice: real, heldQuantity: real, price: real, quantity: real)
    requires heldQuantity >= 0.0 && quantity >= 0.0 && heldQuantity + quantity > 0.0
    ensures var avg := AveragePrice(heldPrice, heldQuantity, price, quantity);
            (heldPrice <= price ==> heldPrice <= avg <= price) &&
            (price <= heldPrice ==> price <= avg <= heldPrice)
  {
    var total := heldQuantity + quantity;
    var avg := AveragePrice(heldPrice, heldQuantity, price, quantity);
    assert avg * total == heldPrice * heldQuantity + price * quantity;
    assert (avg - heldPrice) * total == (price - heldPrice) * quantity;
    assert (avg - price) * total == (heldPrice - price) * heldQuantity;
    if heldPrice <= price {
      MulNonNegative(price - heldPrice, quantity);
      MulNonNegative(price - heldPrice, heldQuantity);
      SignOfProduct(avg - heldPrice, total);
      SignOfProduct(price - avg, total);
    }
    if price <= heldPrice {
      MulNonNegative(heldPrice - price, quantity);
      MulNonNegative(heldPrice - price, heldQuantity);
      SignOfProduct(heldPrice - avg, total);
      SignOfProduct(avg - price, total);
    }
  }

  lemma MulNonNegative(x: real, y: real)
    requires x >= 0.0 && y >= 0.0
    ensures x * y >= 0.0
  {
  }

  lemma SignOfProduct(x: real, t: real)
    requires t > 0.0 && x * t >= 0.0
    ensures x >= 0.0
  {
  }

  function Merge(h: Holding, quantity: real, price: real): Holding {
    h.(quantity := h.quantity + quantity,
       purchasePrice := AveragePrice(h.purchasePrice, h.quantity, price, quantity))
  }

  /** The portfolio after a buy: a held ticker is merged into its holding, a new one
      is appended (App.js 186-190 and 1246-1250). */
  function Bought(p: seq<Holding>, ticker: string, quantity: real, price: real, id: int): seq<Holding> {
    if IndexOf(p, ticker).Some? then
      seq(|p|, i requires 0 <= i < |p| => if p[i].ticker == ticker then Merge(p[i], quantity, price) else p[i])
    else p + [Holding(id, ticker, quantity, price)]
  }

  /** `prev.filter(s => s.ticker !== ticker)`. */
  function Without(p: seq<Holding>, ticker: string): (r: seq<Holding>)
    ensures |r| <= |p|
  {
    if p == [] then []
    else (if p[0].ticker == ticker then [] else [p[0]]) + Without(p[1..], ticker)
  }

  /** The portfolio after a sale: the holding goes when the whole position is sold,
      otherwise its quantity drops (App.js 144-147 and 1268-1273). */
  function Sold(p: seq<Holding>, ticker: string, quantity: real): seq<Holding> {
    match IndexOf(p, ticker)
    case None => p
    case Some(k) =>
      if p[k].quantity == quantity then Without(p, ticker)
      else seq(|p|, i requires 0 <= i < |p| =>
                 if p[i].ticker == ticker then p[i].(quantity := p[i].quantity - quantity) else p[i])
  }

  /** Two bot buys of zero shares ("buy 0 tcs", confirmed twice) first append a
      holding of quantity 0 and then average over a combined quantity of 0: the
      average as written is `0 / 0`, i.e. NaN, while the corrected average keeps
      the held price. */
  lemma ZeroShareBotBuysReachNaN(p: seq<Holding>, ticker: string, price: real, id: int, price2: real)
    requires forall i :: 0 <= i < |p| ==> p[i].ticker != ticker
    ensures var p1 := Bought(p, ticker, 0.0, price, id);
            |p1| == |p| + 1 && p1[|p|] == Holding(id, ticker, 0.0, price) &&
            AveragePriceAsWritten(p1[|p|].purchasePrice, p1[|p|].quantity, price2, 0.0).None? &&
            Bought(p1, ticker, 0.0, price2, id)[|p|] == p1[|p|]
  {
    BuyNew(p, ticker, 0.0, price, id);
    var p1 := Bought(p, ticker, 0.0, price, id);
    assert p1 == p + [Holding(id, ticker, 0.0, price)];
    assert p1[|p|].ticker == ticker;
    assert IndexOf(p1, ticker) == Some(|p|);
  }

  /** Filtering out a ticker held once removes exactly that holding. */
  lemma {:induction false} WithoutOne(p: seq<Holding>, k: nat)
    requires UniqueTickers(p) && k < |p|
    ensures Without(p, p[k].ticker) == p[..k] + p[k + 1..]
  {
    if k == 0 {
      WithoutAbsent(p[1..], p[0].ticker);
      assert p[..0] + p[1..] == p[1..];
    } else {
      WithoutOne(p[1..], k - 1);
      assert p[1..][..k - 1] + p[1..][k..] == p[1..k] + p[k + 1..];
      assert [p[0]] + (p[1..k] + p[k + 1..]) == p[..k] + p[k + 1..];
    }
  }

  /** Filtering out a ticker that is not held changes nothing. */
  lemma {:induction false} WithoutAbsent(p: seq<Holding>, ticker: string)
    requires forall i :: 0 <= i < |p| ==> p[i].ticker != ticker
    ensures Without(p, ticker) == p
  {
    if p != [] {
      WithoutAbsent(p[1..], ticker);
    }
  }

  /** Buying a held ticker adds the quantity to that holding, sets its price to the
      quantity-weighted average and leaves every other holding as it was. */
  lemma BuyHeld(p: seq<Holding>, k: nat, quantity: real, price: real, id: int)
    requires UniqueTickers(p) && k < |p|
    ensures var r := Bought(p, p[k].ticker, quantity, price, id);
            |r| == |p| &&
            r[k] == p[k].(quantity := p[k].quantity + quantity,
                          purchasePrice := AveragePrice(p[k].purchasePrice, p[k].quantity, price, quantity)) &&
            forall i :: 0 <= i < |p| && i != k ==> r[i] == p[i]
  {
    assert IndexOf(p, p[k].ticker).Some?;
  }

  /** Buying a ticker that is not held appends exactly one new holding. */
  lemma BuyNew(p: seq<Holding>, ticker: string, quantity: real, price: real, id: int)
    requires forall i :: 0 <= i < |p| ==> p[i].ticker != ticker
    ensures Bought(p, ticker, quantity, price, id) == p + [Holding(id, ticker, quantity, price)]
  {
  }

  /** Selling a whole position removes that holding and nothing else. */
  lemma SellWhole(p: seq<Holding>, k: nat)
    requires UniqueTickers(p) && k < |p|
    ensures Sold(p, p[k].ticker, p[k].quantity) == p[..k] + p[k + 1..]
  {
    assert IndexOf(p, p[k].ticker) == Some(k);
    WithoutOne(p, k);
  }

  /** Selling part of a position lowers that holding's quantity and nothing else. */
  lemma SellPart(p: seq<Holding>, k: nat, quantity: real)
    requires UniqueTickers(p) && k < |p| && quantity != p[k].quantity
    ensures var r := Sold(p, p[k].ticker, quantity);
            |r| == |p| && r[k] == p[k].(quantity := p[k].quantity - quantity) &&
            forall i :: 0 <= i < |p| && i != k ==> r[i] == p[i]
  {
    assert IndexOf(p, p[k].ticker) == Some(k);
  }

  /** The trade handlers never create a second holding of the same ticker. */
  lemma BuySellKeepUnique(p: seq<Holding>, ticker: string, quantity: real, price: real, id: int)
    requires UniqueTickers(p)
    ensures UniqueTickers(Bought(p, ticker, quantity, price, id))
    ensures UniqueTickers(Sold(p, ticker, quantity))
  {
    match IndexOf(p, ticker)
    case None =>
    case Some(k) =>
      if p[k].quantity == quantity {
        WithoutOne(p, k);
        DropKeepsUnique(p, k);
      }
  }

  /** Selling at most the held quantity keeps quantities non-negative, and selling a
      positive quantity keeps them positive. */
  lemma SellKeepsSigns(p: seq<Holding>, ticker: string, quantity: real)
    requires UniqueTickers(p) && IndexOf(p, ticker).Some?
    requires 0.0 <= quantity <= p[IndexOf(p, ticker).value].quantity
    ensures NonNegative(p) ==> NonNegative(Sold(p, ticker, quantity))
    ensures AllPositive(p) && quantity > 0.0 ==> AllPositive(Sold(p, ticker, quantity))
  {
    var k := IndexOf(p, ticker).value;
    if p[k].quantity == quantity {
      SellWhole(p, k);
      var r := p[..k] + p[k + 1..];
      forall i | 0 <= i < |r| ensures r[i] == p[if i < k then i else i + 1] {
      }
    } else {
      SellPart(p, k, quantity);
    }
  }

  lemma DropKeepsUnique(p: seq<Holding>, k: nat)
    requires UniqueTickers(p) && k < |p|
    ensures UniqueTickers(p[..k] + p[k + 1..])
  {
    var r := p[..k] + p[k + 1..];
    forall i, j | 0 <= i < j < |r| ensures r[i].ticker != r[j].ticker {
      var i' := if i < k then i else i + 1;
      var j' := if j < k then j else j + 1;
      assert r[i] == p[i'] && r[j] == p[j'];
    }
  }

  /** The paper-trading state of the app context. */
  class Ledger {
    var portfolio: seq<Holding>
    var funds: real
    var exchangeRate: real

    /** Each ticker is held at most once and no quantity is negative. */
    ghost predicate Valid()
      reads this
    {
      UniqueTickers(portfolio) && NonNegative(portfolio)
    }

    /** Initial context state: no holdings, no funds, rate 83.0. */
    constructor ()
      ensures Valid()
      ensures portfolio == [] && funds == 0.0 && exchangeRate == 83.0
    {
      portfolio := [];
      funds := 0.0;
      exchangeRate := 83.0;
    }

    /** `setExchangeRate(rate?.usd_to_inr || 83.0)`: a missing or zero rate falls back to 83. */
    method SetExchangeRate(fetched: Option<real>)
      modifies this`exchangeRate
      ensures exchangeRate == if fetched.Some? && fetched.value != 0.0 then fetched.value else 83.0
    {
      exchangeRate := if fetched.Some? && fetched.value != 0.0 then fetched.value else 83.0;
    }

    /** `TradeCard.handleBuy`: refuses a non-positive quantity or a rupee cost above
        the funds; otherwise pays the cost and records the buy. */
    method CardBuy(ticker: string, price: real, quantity: real, id: int) returns (outcome: Outcome)
      requires Valid()
      modifies this`portfolio, this`funds
      ensures Valid()
      ensures outcome == if quantity <= 0.0 then InvalidQuantity
                         else if InrValue(ticker, price, quantity, exchangeRate) > old(funds) then InsufficientFunds
                         else Done
      ensures outcome == Done ==>
                funds == old(funds) - InrValue(ticker, price, quantity, exchangeRate) &&
                portfolio == Bought(old(portfolio), ticker, quantity, price, id)
      ensures outcome != Done ==> funds == old(funds) && portfolio == old(portfolio)
      ensures AllPositive(old(portfolio)) ==> AllPositive(portfolio)
    {
      if quantity <= 0.0 {
        return InvalidQuantity;
      }
      var cost := InrValue(ticker, price, quantity, exchangeRate);
      if cost > funds {
        return InsufficientFunds;
      }
      BuySellKeepUnique(portfolio, ticker, quantity, price, id);
      funds := funds - cost;
      portfolio := Bought(portfolio, ticker, quantity, price, id);
      outcome := Done;
    }

    /** `handleBuyFromBot`: only the funds are checked, so a zero quantity is bought. */
    method BotBuy(ticker: string, quantity: nat, price: real, id: int) returns (ok: bool)
      requires Valid()
      modifies this`portfolio, this`funds
      ensures Valid()
      ensures ok == (InrValue(ticker, price, quantity as real, exchangeRate) <= old(funds))
      ensures ok ==> funds == old(funds) - InrValue(ticker, price, quantity as real, exchangeRate) &&
                     portfolio == Bought(old(portfolio), ticker, quantity as real, price, id)
      ensures !ok ==> funds == old(funds) && portfolio == old(portfolio)
    {
      var cost := InrValue(ticker, price, quantity as real, exchangeRate);
      if cost > funds {
        return false;
      }
      BuySellKeepUnique(portfolio, ticker, quantity as real, price, id);
      funds := funds - cost;
      portfolio := Bought(portfolio, ticker, quantity as real, price, id);
      ok := true;
    }

    /** `SellModal.handleSell`: the modal is shown only for a held ticker; a quantity
        outside 0 < quantity <= held is refused; otherwise the sale is credited. */
    method ModalSell(ticker: string, price: real, quantity: real) returns (outcome: Outcome)
      requires Valid()
      requires IndexOf(portfolio, ticker).Some?
      modifies this`portfolio, this`funds
      ensures Valid()
      ensures var held := old(portfolio)[IndexOf(old(portfolio), ticker).value].quantity;
              outcome == if quantity <= 0.0 || quantity > held then InvalidQuantity else Done
      ensures outcome == Done ==>
                funds == old(funds) + InrValue(ticker, price, quantity, exchangeRate) &&
                portfolio == Sold(old(portfolio), ticker, quantity)
      ensures outcome != Done ==> funds == old(funds) && portfolio == old(portfolio)
      ensures AllPositive(old(portfolio)) ==> AllPositive(portfolio)
    {
      var k := IndexOf(portfolio, ticker).value;
      if quantity <= 0.0 || quantity > portfolio[k].quantity {
        return InvalidQuantity;
      }
      BuySellKeepUnique(portfolio, ticker, quantity, price, 0);
      SellKeepsSigns(portfolio, ticker, quantity);
      funds := funds + InrValue(ticker, price, quantity, exchangeRate);
      portfolio := Sold(portfolio, ticker, quantity);
      outcome := Done;
    }

    /** `handleSellFromBot`: refused when the ticker is not held or fewer shares are
        held than asked for; the quantity itself is not checked. */
    method BotSell(ticker: string, quantity: nat, price: real) returns (ok: bool)
      requires Valid()
      modifies this`portfolio, this`funds
      ensures Valid()
      ensures ok == (IndexOf(old(portfolio), ticker).Some? &&
                     old(portfolio)[IndexOf(old(portfolio), ticker).value].quantity >= quantity as real)
      ensures ok ==> funds == old(funds) + InrValue(ticker, price, quantity as real, exchangeRate) &&
                     portfolio == Sold(old(portfolio), ticker, quantity as real)
      ensures !ok ==> funds == old(funds) && portfolio == old(portfolio)
    {
      var found := IndexOf(portfolio, ticker);
      if found.None? || portfolio[found.value].quantity < quantity as real {
        return false;
      }
      var k := found.value;
      BuySellKeepUnique(portfolio, ticker, quantity as real, price, 0);
      if portfolio[k].quantity == quantity as real {
        WithoutOne(portfolio, k);
      }
      funds := funds + InrValue(ticker, price, quantity as real, exchangeRate);
      portfolio := Sold(portfolio, ticker, quantity as real);
      ok := true;
    }

    /** FundsPage `handleAdd`. */
    method AddFunds(amount: real) returns (outcome: Outcome)
      modifies this`funds
      ensures outcome == if amount <= 0.0 then InvalidAmount else Done
      ensures funds == if outcome == Done then old(funds) + amount else old(funds)
    {
      if amount <= 0.0 {
        return InvalidAmount;
      }
      funds := funds + amount;
      outcome := Done;
    }

    /** FundsPage `handleWithdraw`: a withdrawal never takes the balance below zero. */
    method Withdraw(amount: real) returns (outcome: Outcome)
      modifies this`funds
      ensures outcome == if amount <= 0.0 then InvalidAmount else if amount > old(funds) then ExceedsFunds else Done
      ensures funds == if outcome == Done then old(funds) - amount else old(funds)
      ensures outcome == Done ==> funds >= 0.0
    {
      if amount <= 0.0 {
        return InvalidAmount;
      }
      if amount > funds {
        return ExceedsFunds;
      }
      funds := funds - amount;
      outcome := Done;
    }
  }
}
