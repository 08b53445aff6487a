/**
 * The Account object: a cash balance, a dictionary of holdings and a list of
 * transactions, updated in place by deposit, withdraw, buy_shares and
 * sell_shares. Every method leaves the fields exactly as the matching
 * function of module Ledger says, so the facts proved there about those
 * functions hold of the object too.
 */
module Accounts {
  import Prices
  import opened Ledger
  import Valuation

  class Account {
    const accountId: string
    var balance: real
    var holdings: map<string, int>
    var transactions: seq<Transaction>

    /** The fields as a value of module Ledger. */
    function State(): AccountState
      reads this
    {
      AccountState(balance, holdings, transactions)
    }

    /** Held symbols are listed with positive quantities, and the log opens with the creating deposit. */
    ghost predicate Valid()
      reads this
    {
      WellFormed(State())
    }

    /** `Account(account_id, initial_deposit=0.0)`: the sign of the initial deposit is not checked. */
    constructor (accountId: string, initialDeposit: real := 0.0)
      ensures Valid()
      ensures this.accountId == accountId
      ensures State() == Open(initialDeposit)
    {
      this.accountId := accountId;
      balance := initialDeposit;
      holdings := map[];
      transactions := [];
      new;
      RecordTransaction(DepositRecord(initialDeposit));
    }

    /** `_record_transaction`: appends one record and touches nothing else. */
    method RecordTransaction(t: Transaction)
      modifies this
      ensures transactions == old(transactions) + [t]
      ensures balance == old(balance) && holdings == old(holdings)
    {
      transactions := transactions + [t];
    }

    method Deposit(amount: real) returns (outcome: Outcome)
      requires Valid()
      modifies this
      ensures Valid()
      ensures outcome == Ledger.Deposit(old(State()), amount).outcome
      ensures State() == Ledger.Deposit(old(State()), amount).after
      ensures old(balance) >= 0.0 ==> balance >= 0.0
    {
      if amount <= 0.0 {
        return Failure(InvalidAmount);
      }
      balance := balance + amount;
      RecordTransaction(DepositRecord(amount));
      outcome := Success;
    }

    method Withdraw(amount: real) returns (outcome: Outcome)
      requires Valid()
      modifies this
      ensures Valid()
      ensures outcome == Ledger.Withdraw(old(State()), amount).outcome
      ensures State() == Ledger.Withdraw(old(State()), amount).after
      ensures old(balance) >= 0.0 ==> balance >= 0.0
    {
      if amount <= 0.0 {
        return Failure(InvalidAmount);
      }
      if balance < amount {
        return Failure(InsufficientFunds);
      }
      balance := balance - amount;
      RecordTransaction(WithdrawRecord(amount));
      outcome := Success;
    }

    method BuyShares(symbol: string, quantity: int) returns (outcome: Outcome)
      requires Valid()
      modifies this
      ensures Valid()
      ensures outcome == Ledger.BuyShares(old(State()), symbol, quantity).outcome
      ensures State() == Ledger.BuyShares(old(State()), symbol, quantity).after
      ensures old(balance) >= 0.0 ==> balance >= 0.0
    {
      if quantity <= 0 {
        return Failure(InvalidQuantity);
      }
      var quote := Prices.SharePrice(symbol);
      if quote.None? {
        return Failure(UnknownSymbol);
      }
      var pricePerShare := quote.value;
      var totalCost := pricePerShare * quantity as real;
      if balance < totalCost {
        return Failure(InsufficientFunds);
      }
      balance := balance - totalCost;
      holdings := holdings[symbol := Held(holdings, symbol) + quantity];
      RecordTransaction(TradeRecord(BuyTx, symbol, quantity, pricePerShare));
      outcome := Success;
    }

    method SellShares(symbol: string, quantity: int) returns (outcome: Outcome)
      requires Valid()
      modifies this
      ensures Valid()
      ensures outcome == Ledger.SellShares(old(State()), symbol, quantity).outcome
      ensures State() == Ledger.SellShares(old(State()), symbol, quantity).after
      ensures old(balance) >= 0.0 ==> balance >= 0.0
    {
      if quantity <= 0 {
        return Failure(InvalidQuantity);
      }
      if symbol !in holdings || holdings[symbol] < quantity {
        return Failure(InsufficientShares);
      }
      // A held symbol was bought, so its price lookup cannot fail.
      var pricePerShare := Prices.ListedPrice(symbol);
      var totalRevenue := pricePerShare * quantity as real;
      balance := balance + totalRevenue;
      holdings := holdings[symbol := holdings[symbol] - quantity];
      if holdings[symbol] == 0 {
        holdings := holdings - {symbol};
      }
      RecordTransaction(TradeRecord(SellTx, symbol, quantity, pricePerShare));
      outcome := Success;
    }

    /** `get_portfolio_value`: the balance plus, for each held symbol, its price times the quantity held. */
    method PortfolioValue() returns (value: real)
      requires Valid()
      ensures value == balance + Valuation.HoldingsValue(holdings)
    {
      value := balance;
      var pending := holdings.Keys;
      Valuation.RestrictAll(holdings);
      while pending != {}
        invariant pending <= holdings.Keys
        invariant value + Valuation.HoldingsValue(Valuation.Restrict(holdings, pending)) ==
                  balance + Valuation.HoldingsValue(holdings)
        decreases pending
      {
        var symbol :| symbol in pending;
        var part := Valuation.Restrict(holdings, pending);
        Valuation.HoldingsValueSplit(part, symbol);
        Valuation.RestrictRemove(holdings, pending, symbol);
        assert part[symbol] == holdings[symbol];
        value := value + Valuation.Worth(symbol, holdings[symbol]);
        pending := pending - {symbol};
      }
      assert Valuation.Restrict(holdings, {}) == map[];
    }

    /** `get_profit_loss`: the portfolio value less the first deposit in the log, which is the creating one. */
    method ProfitLoss() returns (profitLoss: real)
      requires Valid()
      ensures profitLoss == Valuation.ProfitLoss(State())
      ensures profitLoss == balance + Valuation.HoldingsValue(holdings) - transactions[0].price
    {
      var value := PortfolioValue();
      profitLoss := value - FirstDepositPrice(transactions);
      Valuation.ProfitLossBaseline(State());
    }

    /** `get_holdings`: a copy of the holdings, every quantity positive. */
    method GetHoldings() returns (snapshot: map<string, int>)
      requires Valid()
      ensures snapshot == holdings
      ensures forall s | s in snapshot :: snapshot[s] > 0 && s in Prices.Listed
    {
      snapshot := holdings;
    }

    /** `get_transactions`: a copy of the log, in recorded order, opening with the creating deposit. */
    method GetTransactions() returns (log: seq<Transaction>)
      requires Valid()
      ensures log == transactions
      ensures |log| >= 1 && log[0].kind == DepositTx
    {
      log := transactions;
    }
  }
}
