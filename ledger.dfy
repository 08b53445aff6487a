/**
 * The trading-account ledger as values: one account's cash balance, its share
 * holdings and its append-only transaction log, and the four operations that
 * change them. Each operation either applies in full or is rejected with an
 * error and leaves the state exactly as it was. The class in module Accounts
 * is proved to behave as these functions say.
 */
module Ledger {
  import opened Wrappers
  import Prices

  /** The `type` field of a transaction: 'deposit', 'withdraw', 'buy' or 'sell'. */
  datatype Kind = DepositTx | WithdrawTx | BuyTx | SellTx

  /**
   * One record of the log. `price` is the cash amount for a deposit or a
   * withdrawal and the price per share for a buy or a sell; `symbol` and
   * `quantity` are None for deposits and withdrawals.
   */
  datatype Transaction = Transaction(kind: Kind, symbol: Option<string>, quantity: Option<int>, price: real)

  /** The state an Account object holds (its identifier aside). */
  datatype AccountState = AccountState(balance: real, holdings: map<string, int>, transactions: seq<Transaction>)

  /**
   * Why an operation was rejected. InvalidAmount, InvalidQuantity and
   * UnknownSymbol are all a ValueError in the source; the other two are its
   * InsufficientFundsError and InsufficientSharesError.
   */
  datatype Error = InvalidAmount | InvalidQuantity | UnknownSymbol | InsufficientFunds | InsufficientShares
  {
    predicate IsValueError() {
      InvalidAmount? || InvalidQuantity? || UnknownSymbol?
    }
  }

  datatype Outcome = Success | Failure(error: Error)

  /** What an operation reports, and the state after it. */
  datatype Step = Step(outcome: Outcome, after: AccountState)

  function DepositRecord(amount: real): Transaction {
    Transaction(DepositTx, None, None, amount)
  }

  function WithdrawRecord(amount: real): Transaction {
    Transaction(WithdrawTx, None, None, amount)
  }

  function TradeRecord(kind: Kind, symbol: string, quantity: int, price: real): Transaction {
    Transaction(kind, Some(symbol), Some(quantity), price)
  }

  /** Every held symbol has a price in the table. */
  predicate HoldingsListed(h: map<string, int>) {
    forall s | s in h :: s in Prices.Listed
  }

  /** Held symbols are listed and no quantity is stored as zero (or below). */
  predicate HoldingsValid(h: map<string, int>) {
    HoldingsListed(h) && forall s | s in h :: h[s] > 0
  }

  /** The invariant every operation keeps: valid holdings, and a log that opens with the creating deposit. */
  predicate WellFormed(l: AccountState) {
    HoldingsValid(l.holdings) && |l.transactions| >= 1 && l.transactions[0].kind == DepositTx
  }

  /** The cash balance is not negative. */
  predicate Solvent(l: AccountState) {
    l.balance >= 0.0
  }

  /** `holdings.get(symbol, 0)`. */
  function Held(h: map<string, int>, symbol: string): int {
    if symbol in h then h[symbol] else 0
  }

  /** The state a new account starts in: `initialDeposit` in cash, no holdings, one deposit record. */
  function Open(initialDeposit: real): (l: AccountState)
    ensures WellFormed(l)
    ensures l.balance == initialDeposit && l.holdings == map[]
    ensures l.transactions == [DepositRecord(initialDeposit)]
    ensures Solvent(l) <==> initialDeposit >= 0.0
  {
    AccountState(initialDeposit, map[], [DepositRecord(initialDeposit)])
  }

  /** Adds `amount` to the balance; rejects a non-positive amount. */
  function Deposit(l: AccountState, amount: real): (r: Step)
    ensures r.outcome.Success? <==> amount > 0.0
    ensures r.outcome.Failure? ==> r.outcome.error == InvalidAmount && r.after == l
    ensures r.outcome.Success? ==>
      r.after.balance == l.balance + amount && r.after.holdings == l.holdings &&
      r.after.transactions == l.transactions + [DepositRecord(amount)]
    ensures WellFormed(l) ==> WellFormed(r.after)
    ensures Solvent(l) ==> Solvent(r.after)
  {
    if amount <= 0.0 then Step(Failure(InvalidAmount), l)
    else Step(Success, l.(balance := l.balance + amount,
                          transactions := l.transactions + [DepositRecord(amount)]))
  }

  /**
   * Takes `amount` from the balance; rejects a non-positive amount, and an
   * amount above the balance (taking the whole balance is allowed).
   */
  function Withdraw(l: AccountState, amount: real): (r: Step)
    ensures amount <= 0.0 ==> r.outcome == Failure(InvalidAmount)
    ensures amount > 0.0 && l.balance < amount ==> r.outcome == Failure(InsufficientFunds)
    ensures r.outcome.Success? <==> 0.0 < amount <= l.balance
    ensures r.outcome.Failure? ==> r.after == l
    ensures r.outcome.Success? ==>
      r.after.balance == l.balance - amount && r.after.holdings == l.holdings &&
      r.after.transactions == l.transactions + [WithdrawRecord(amount)]
    ensures WellFormed(l) ==> WellFormed(r.after)
    ensures Solvent(l) ==> Solvent(r.after)
  {
    if amount <= 0.0 then Step(Failure(InvalidAmount), l)
    else if l.balance < amount then Step(Failure(InsufficientFunds), l)
    else Step(Success, l.(balance := l.balance - amount,
                          transactions := l.transactions + [WithdrawRecord(amount)]))
  }

  /**
   * Buys `quantity` shares of `symbol` at the table's price. Rejects a
   * non-positive quantity, then an unknown symbol, then a cost above the
   * balance, in that order.
   */
  function BuyShares(l: AccountState, symbol: string, quantity: int): (r: Step)
    ensures quantity <= 0 ==> r.outcome == Failure(InvalidQuantity)
    ensures quantity > 0 && symbol !in Prices.Listed ==> r.outcome == Failure(UnknownSymbol)
    ensures quantity > 0 && symbol in Prices.Listed && l.balance < Prices.ListedPrice(symbol) * quantity as real ==>
      r.outcome == Failure(InsufficientFunds)
    ensures r.outcome.Success? <==>
      quantity > 0 && symbol in Prices.Listed && Prices.ListedPrice(symbol) * quantity as real <= l.balance
    ensures r.outcome.Failure? ==> r.after == l
    ensures r.outcome.Success? ==>
      quantity > 0 && symbol in Prices.Listed &&
      var price := Prices.ListedPrice(symbol);
      price * quantity as real <= l.balance &&
      r.after.balance == l.balance - price * quantity as real &&
      r.after.holdings == l.holdings[symbol := Held(l.holdings, symbol) + quantity] &&
      r.after.transactions == l.transactions + [TradeRecord(BuyTx, symbol, quantity, price)]
    ensures WellFormed(l) ==> WellFormed(r.after)
    ensures r.outcome.Success? ==> Solvent(r.after)
    ensures Solvent(l) ==> Solvent(r.after)
  {
    if quantity <= 0 then Step(Failure(InvalidQuantity), l)
    else
      match Prices.SharePrice(symbol)
      case None => Step(Failure(UnknownSymbol), l)
      case Some(price) =>
        var cost := price * quantity as real;
        if l.balance < cost then Step(Failure(InsufficientFunds), l)
        else Step(Success, l.(balance := l.balance - cost,
                              holdings := l.holdings[symbol := Held(l.holdings, symbol) + quantity],
                              transactions := l.transactions + [TradeRecord(BuyTx, symbol, quantity, price)]))
  }

  /** The holdings after `quantity` shares of a held `symbol` are sold: the entry goes when it reaches zero. */
  function Reduced(h: map<string, int>, symbol: string, quantity: int): (r: map<string, int>)
    requires symbol in h
    ensures r.Keys <= h.Keys
    ensures h[symbol] - quantity == 0 ==> symbol !in r && r == h - {symbol}
    ensures h[symbol] - quantity != 0 ==> symbol in r && r[symbol] == h[symbol] - quantity
    ensures forall s | s in h && s != symbol :: s in r && r[s] == h[s]
  {
    var remaining := h[symbol := h[symbol] - quantity];
    if remaining[symbol] == 0 then remaining - {symbol} else remaining
  }

  /**
   * Sells `quantity` shares of `symbol` at the table's price. Rejects a
   * non-positive quantity, then a symbol not held in at least `quantity`
   * shares, then (only reachable outside WellFormed) an unknown symbol.
   */
  function SellShares(l: AccountState, symbol: string, quantity: int): (r: Step)
    ensures quantity <= 0 ==> r.outcome == Failure(InvalidQuantity)
    ensures quantity > 0 && Held(l.holdings, symbol) < quantity ==> r.outcome == Failure(InsufficientShares)
    ensures WellFormed(l) ==> (r.outcome.Success? <==> 0 < quantity <= Held(l.holdings, symbol))
    ensures r.outcome.Failure? ==> r.after == l
    ensures r.outcome.Success? ==>
      quantity > 0 && symbol in l.holdings && quantity <= l.holdings[symbol] && symbol in Prices.Listed &&
      var price := Prices.ListedPrice(symbol);
      r.after.balance == l.balance + price * quantity as real &&
      r.after.holdings == Reduced(l.holdings, symbol, quantity) &&
      r.after.transactions == l.transactions + [TradeRecord(SellTx, symbol, quantity, price)]
    ensures WellFormed(l) ==> WellFormed(r.after)
    ensures Solvent(l) ==> Solvent(r.after)
  {
    if quantity <= 0 then Step(Failure(InvalidQuantity), l)
    else if symbol !in l.holdings || l.holdings[symbol] < quantity then Step(Failure(InsufficientShares), l)
    else
      match Prices.SharePrice(symbol)
      case None => Step(Failure(UnknownSymbol), l)
      case Some(price) =>
        Step(Success, l.(balance := l.balance + price * quantity as real,
                         holdings := Reduced(l.holdings, symbol, quantity),
                         transactions := l.transactions + [TradeRecord(SellTx, symbol, quantity, price)]))
  }

  /** `i` is the position of the first deposit record in `log`. */
  predicate IsFirstDeposit(log: seq<Transaction>, i: int) {
    0 <= i < |log| && log[i].kind == DepositTx && forall j | 0 <= j < i :: log[j].kind != DepositTx
  }

  /**
   * The amount of the first deposit in the log, scanning in recorded order,
   * or 0.0 when the log holds no deposit: the baseline of profit and loss.
   */
  function FirstDepositPrice(log: seq<Transaction>): (r: real)
    ensures forall i | IsFirstDeposit(log, i) :: r == log[i].price
    ensures (forall i | 0 <= i < |log| :: log[i].kind != DepositTx) ==> r == 0.0
  {
    if log == [] then 0.0
    else if log[0].kind == DepositTx then log[0].price
    else
      assert forall i | IsFirstDeposit(log, i) :: IsFirstDeposit(log[1..], i - 1);
      FirstDepositPrice(log[1..])
  }
}
