/**
 * Portfolio value (cash plus every holding at the table's price) and profit
 * or loss (portfolio value less the first deposit), with the facts that tie
 * them to the operations of module Ledger.
 */
module Valuation {
  import Prices
  import opened Ledger

  /** The sum of the values of `w`. */
  ghost function Sum(w: map<string, real>): real
    decreases w.Keys
  {
    if w.Keys == {} then 0.0
    else
      var s := Pick(w);
      w[s] + Sum(w - {s})
  }

  /** Some key of `w`; which one is left open, as the order of a dictionary's items is. */
  ghost function Pick(w: map<string, real>): (s: string)
    requires w.Keys != {}
    ensures s in w
  {
    var s :| s in w.Keys; s
  }

  /** What each holding is worth: price times quantity. */
  function Worths(h: map<string, int>): (w: map<string, real>)
    requires HoldingsListed(h)
    ensures w.Keys == h.Keys
  {
    map s | s in h.Keys && s in Prices.Listed :: Worth(s, h[s])
  }

  /** What `quantity` shares of a listed symbol are worth. */
  function Worth(symbol: string, quantity: int): real
    requires symbol in Prices.Listed
  {
    Prices.ListedPrice(symbol) * quantity as real
  }

  /** The value of the holdings at the table's prices: the sum of price times quantity over the held symbols. */
  ghost function HoldingsValue(h: map<string, int>): real
    requires HoldingsListed(h)
  {
    Sum(Worths(h))
  }

  /** `get_portfolio_value`: the balance plus the value of the holdings. */
  ghost function PortfolioValue(l: AccountState): real
    requires HoldingsListed(l.holdings)
  {
    l.balance + HoldingsValue(l.holdings)
  }

  /** `get_profit_loss`: the portfolio value less the first deposit in the log. */
  ghost function ProfitLoss(l: AccountState): real
    requires HoldingsListed(l.holdings)
  {
    PortfolioValue(l) - FirstDepositPrice(l.transactions)
  }

  /** The part of `h` whose symbols are in `keys`. */
  function Restrict(h: map<string, int>, keys: set<string>): (r: map<string, int>)
    ensures r.Keys == h.Keys * keys
    ensures forall s | s in r :: r[s] == h[s]
  {
    map s | s in h.Keys && s in keys :: h[s]
  }

  lemma RestrictAll(h: map<string, int>)
    ensures Restrict(h, h.Keys) == h
  {
  }

  lemma RestrictRemove(h: map<string, int>, keys: set<string>, k: string)
    ensures Restrict(h, keys) - {k} == Restrict(h, keys - {k})
  {
  }

  /** The sum does not depend on which key is taken first: any key can be split off. */
  lemma {:induction false} SumSplit(w: map<string, real>, k: string)
    requires k in w
    ensures Sum(w) == w[k] + Sum(w - {k})
    decreases w.Keys
  {
    var s := Pick(w);
    if s != k {
      var ws, wk := w - {s}, w - {k};
      SumSplit(ws, k);
      SumSplit(wk, s);
      assert wk - {s} == ws - {k};
    }
  }

  /** Any held symbol can be split off the value of the holdings. */
  lemma HoldingsValueSplit(h: map<string, int>, k: string)
    requires HoldingsListed(h) && k in h
    ensures HoldingsValue(h) == Worth(k, h[k]) + HoldingsValue(h - {k})
  {
    var w, wk := Worths(h), Worths(h - {k});
    SumSplit(w, k);
    assert (w - {k}).Keys == wk.Keys;
    assert forall s | s in wk :: (w - {k})[s] == wk[s];
    assert w - {k} == wk;
  }

  /** Setting the quantity of one symbol changes the value by that symbol's share of it, whatever was held before. */
  lemma HoldingsValueUpdate(h: map<string, int>, k: string, n: int)
    requires HoldingsListed(h) && k in Prices.Listed
    ensures HoldingsListed(h[k := n])
    ensures HoldingsValue(h[k := n]) == Worth(k, n) + HoldingsValue(h - {k})
  {
    HoldingsValueSplit(h[k := n], k);
    assert h[k := n] - {k} == h - {k};
  }

  /** With no holdings the portfolio is worth its cash; so a new account is worth its initial deposit. */
  lemma OpenPortfolioValue(initialDeposit: real)
    ensures PortfolioValue(Open(initialDeposit)) == initialDeposit
    ensures ProfitLoss(Open(initialDeposit)) == 0.0
  {
  }

  /** Once the log opens with a deposit, profit and loss is measured against that deposit and no later one. */
  lemma ProfitLossBaseline(l: AccountState)
    requires WellFormed(l)
    ensures ProfitLoss(l) == PortfolioValue(l) - l.transactions[0].price
  {
  }

  /** A deposit raises the portfolio value by the amount deposited. */
  lemma DepositValue(l: AccountState, amount: real)
    requires WellFormed(l) && Deposit(l, amount).outcome.Success?
    ensures PortfolioValue(Deposit(l, amount).after) == PortfolioValue(l) + amount
  {
  }

  /** A withdrawal lowers the portfolio value by the amount withdrawn. */
  lemma WithdrawValue(l: AccountState, amount: real)
    requires WellFormed(l) && Withdraw(l, amount).outcome.Success?
    ensures PortfolioValue(Withdraw(l, amount).after) == PortfolioValue(l) - amount
  {
  }

  /** Buying at the table's price turns cash into shares of equal value: the portfolio value does not move. */
  lemma BuyKeepsValue(l: AccountState, symbol: string, quantity: int)
    requires WellFormed(l) && BuyShares(l, symbol, quantity).outcome.Success?
    ensures PortfolioValue(BuyShares(l, symbol, quantity).after) == PortfolioValue(l)
  {
    var h := l.holdings;
    var n := Held(h, symbol);
    HoldingsValueUpdate(h, symbol, n + quantity);
    assert Worth(symbol, n + quantity) == Worth(symbol, n) + Worth(symbol, quantity);
    if symbol in h {
      HoldingsValueSplit(h, symbol);
    } else {
      assert h - {symbol} == h;
    }
  }

  /** Selling at the table's price turns shares into cash of equal value: the portfolio value does not move. */
  lemma SellKeepsValue(l: AccountState, symbol: string, quantity: int)
    requires WellFormed(l) && SellShares(l, symbol, quantity).outcome.Success?
    ensures PortfolioValue(SellShares(l, symbol, quantity).after) == PortfolioValue(l)
  {
    var h := l.holdings;
    var left := h[symbol] - quantity;
    HoldingsValueSplit(h, symbol);
    assert Worth(symbol, h[symbol]) == Worth(symbol, left) + Worth(symbol, quantity);
    if left != 0 {
      assert Reduced(h, symbol, quantity) == h[symbol := left];
      HoldingsValueUpdate(h, symbol, left);
    } else {
      assert Worth(symbol, left) == 0.0;
    }
  }
}
