/** The paper-trading account of src/brokerage/mockBrokerage.ts: a cash
    balance and a list of symbol amounts, loaded from a JSON file (here the
    constructor's arguments) and updated in place by `buy` and `sell`. */
module MockBrokerage {
  import opened Types

  /** IMockPortfolioElement. */
  datatype Element = Element(symbol: string, amount: real)

  /** IMockPortfolio: the balance and the positions. */
  datatype Account = Account(balance: real, portfolio: seq<Element>)

  /** `portfolio.findIndex(el => el.symbol === symbol)`, None standing for -1. */
  function ElementIndex(portfolio: seq<Element>, symbol: string): (r: Option<nat>)
    ensures r.Some? ==> r.value < |portfolio| && portfolio[r.value].symbol == symbol
    ensures r.Some? ==> forall j :: 0 <= j < r.value ==> portfolio[j].symbol != symbol
    ensures r.None? ==> forall j :: 0 <= j < |portfolio| ==> portfolio[j].symbol != symbol
  {
    if |portfolio| == 0 then None
    else if portfolio[0].symbol == symbol then Some(0)
    else match ElementIndex(portfolio[1..], symbol)
      case None => None
      case Some(i) => Some(i + 1)
  }

  /** The account after `buy(symbol, amount, unitPrice)`: nothing when the
      balance is below the total price; a new position paid from the balance
      when the symbol is absent; otherwise the amount is added to the
      position and the balance is not charged. */
  function Traded(acc: Account, symbol: string, amount: real, unitPrice: real): Account
  {
    var totalPrice := amount * unitPrice;
    if acc.balance < totalPrice then acc
    else match ElementIndex(acc.portfolio, symbol)
      case None => Account(acc.balance - totalPrice, acc.portfolio + [Element(symbol, amount)])
      case Some(i) => Account(acc.balance, acc.portfolio[i := Element(symbol, acc.portfolio[i].amount + amount)])
  }

  /** No two positions share a symbol. */
  predicate UniqueSymbols(portfolio: seq<Element>)
  {
    forall i, j :: 0 <= i < j < |portfolio| ==> portfolio[i].symbol != portfolio[j].symbol
  }

  /** A purchase above the balance changes nothing. */
  lemma {:induction false} TradeUnaffordable(acc: Account, symbol: string, amount: real, unitPrice: real)
    requires acc.balance < amount * unitPrice
    ensures Traded(acc, symbol, amount, unitPrice) == acc
  {
  }

  /** An affordable purchase of an absent symbol charges the total price and
      appends the position; of a present symbol, it adds the amount to that
      position only and leaves the balance as it was. */
  lemma {:induction false} TradeAffordable(acc: Account, symbol: string, amount: real, unitPrice: real)
    requires acc.balance >= amount * unitPrice
    ensures var r := Traded(acc, symbol, amount, unitPrice);
            ((forall j :: 0 <= j < |acc.portfolio| ==> acc.portfolio[j].symbol != symbol) ==>
               r.balance == acc.balance - amount * unitPrice &&
               r.portfolio == acc.portfolio + [Element(symbol, amount)]) &&
            (forall i ::
               0 <= i < |acc.portfolio| && acc.portfolio[i].symbol == symbol &&
               (forall j :: 0 <= j < i ==> acc.portfolio[j].symbol != symbol) ==>
               r.balance == acc.balance && |r.portfolio| == |acc.portfolio| &&
               r.portfolio[i] == Element(symbol, acc.portfolio[i].amount + amount) &&
               forall j :: 0 <= j < |acc.portfolio| && j != i ==> r.portfolio[j] == acc.portfolio[j])
  {
  }

  /** Positions stay unique by symbol: a new one is pushed only when no
      position has the symbol. */
  lemma {:induction false} TradeKeepsUnique(acc: Account, symbol: string, amount: real, unitPrice: real)
    requires UniqueSymbols(acc.portfolio)
    ensures UniqueSymbols(Traded(acc, symbol, amount, unitPrice).portfolio)
  {
    var r := Traded(acc, symbol, amount, unitPrice);
    if acc.balance >= amount * unitPrice && ElementIndex(acc.portfolio, symbol).None? {
      forall i, j | 0 <= i < j < |r.portfolio|
        ensures r.portfolio[i].symbol != r.portfolio[j].symbol
      {
        if j == |acc.portfolio| {
          assert r.portfolio[i] == acc.portfolio[i];
        }
      }
    }
  }

  /** A non-negative balance stays non-negative: a charge is made only when
      the balance covers it. */
  lemma {:induction false} TradeKeepsBalance(acc: Account, symbol: string, amount: real, unitPrice: real)
    requires acc.balance >= 0.0
    ensures Traded(acc, symbol, amount, unitPrice).balance >= 0.0
    ensures Traded(acc, symbol, amount, unitPrice).balance <= acc.balance ||
            amount * unitPrice < 0.0
  {
  }

  /** Brokerage: the account held in memory; the file it is read from and
      `save` writes back are not modelled. */
  class Brokerage {
    var balance: real
    var portfolio: seq<Element>

    /** The constructor's `JSON.parse(readFileSync(...))`, passed in. */
    constructor (mockPortfolio: Account)
      ensures State() == mockPortfolio
    {
      balance := mockPortfolio.balance;
      portfolio := mockPortfolio.portfolio;
    }

    function State(): Account
      reads this
    {
      Account(balance, portfolio)
    }

    /** buy. */
    method Buy(symbol: string, amount: real, unitPrice: real)
      modifies this
      ensures State() == Traded(old(State()), symbol, amount, unitPrice)
    {
      var totalPrice := amount * unitPrice;
      var portfolioElementIndex := ElementIndex(portfolio, symbol);
      if balance < totalPrice {
        return;
      }
      if portfolioElementIndex.None? {
        balance := balance - totalPrice;
        portfolio := portfolio + [Element(symbol, amount)];
        return;
      }
      var i := portfolioElementIndex.value;
      portfolio := portfolio[i := portfolio[i].(amount := portfolio[i].amount + amount)];
    }

    /** sell: in the source its body is a copy of buy's, so it buys too. */
    method Sell(symbol: string, amount: real, unitPrice: real)
      modifies this
      ensures State() == Traded(old(State()), symbol, amount, unitPrice)
    {
      var totalPrice := amount * unitPrice;
      var portfolioElementIndex := ElementIndex(portfolio, symbol);
      if balance < totalPrice {
        return;
      }
      if portfolioElementIndex.None? {
        balance := balance - totalPrice;
        portfolio := portfolio + [Element(symbol, amount)];
        return;
      }
      var i := portfolioElementIndex.value;
      portfolio := portfolio[i := portfolio[i].(amount := portfolio[i].amount + amount)];
    }
  }
}
