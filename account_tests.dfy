/**
 * The unit tests of the ledger, one method each: the same calls on a fresh
 * Account, with the assertions the tests make stated as postconditions.
 */
module AccountTests {
  import opened Wrappers
  import opened Ledger
  import Valuation
  import opened Accounts

  method TestAccountInitialization() returns (account: Account)
    ensures account.accountId == "test_account"
    ensures account.balance == 1000.0 && account.holdings == map[]
    ensures |account.transactions| == 1
    ensures account.transactions[0].kind == DepositTx && account.transactions[0].price == 1000.0
  {
    account := new Account("test_account", 1000.0);
  }

  method TestDeposit() returns (account: Account, rejected: Outcome)
    ensures account.balance == 500.0 && |account.transactions| == 2
    ensures account.transactions[1].kind == DepositTx && account.transactions[1].price == 500.0
    ensures rejected.Failure? && rejected.error.IsValueError()
  {
    account := new Account("test_account");
    var deposited := account.Deposit(500.0);
    assert deposited == Success;
    rejected := account.Deposit(-100.0);
  }

  method TestWithdraw() returns (account: Account, negative: Outcome, tooMuch: Outcome)
    ensures account.balance == 700.0 && |account.transactions| == 2
    ensures account.transactions[1].kind == WithdrawTx && account.transactions[1].price == 300.0
    ensures negative.Failure? && negative.error.IsValueError()
    ensures tooMuch == Failure(InsufficientFunds)
  {
    account := new Account("test_account", 1000.0);
    var withdrawn := account.Withdraw(300.0);
    assert withdrawn == Success;
    negative := account.Withdraw(-100.0);
    tooMuch := account.Withdraw(1500.0);
  }

  method TestBuyShares() returns (account: Account, negative: Outcome, tooDear: Outcome)
    ensures account.balance == 5000.0 - 10.0 * 170.0
    ensures account.holdings == map["AAPL" := 10]
    ensures |account.transactions| == 2
    ensures account.transactions[1] == Transaction(BuyTx, Some("AAPL"), Some(10), 170.0)
    ensures negative.Failure? && negative.error.IsValueError()
    ensures tooDear == Failure(InsufficientFunds)
  {
    account := new Account("test_account", 5000.0);
    var bought := account.BuyShares("AAPL", 10);
    assert bought == Success;
    negative := account.BuyShares("TSLA", -5);
    tooDear := account.BuyShares("GOOGL", 5);
  }

  method TestSellShares() returns (account: Account, afterFirstSale: AccountState, negative: Outcome, none: Outcome)
    ensures afterFirstSale.balance == 5000.0 - 10.0 * 170.0 + 5.0 * 170.0
    ensures afterFirstSale.holdings == map["AAPL" := 5]
    ensures |afterFirstSale.transactions| == 3
    ensures afterFirstSale.transactions[2] == Transaction(SellTx, Some("AAPL"), Some(5), 170.0)
    ensures "AAPL" !in account.holdings
    ensures negative.Failure? && negative.error.IsValueError()
    ensures none == Failure(InsufficientShares)
  {
    account := new Account("test_account", 5000.0);
    var bought := account.BuyShares("AAPL", 10);
    var sold := account.SellShares("AAPL", 5);
    afterFirstSale := account.State();
    sold := account.SellShares("AAPL", 5);
    negative := account.SellShares("TSLA", -5);
    none := account.SellShares("TSLA", 5);
  }

  method TestGetPortfolioValue() returns (account: Account, value: real)
    ensures account.holdings.Keys == {"AAPL"}
    ensures value == account.balance + account.holdings["AAPL"] as real * 170.0
    ensures value == 5000.0
  {
    account := new Account("test_account", 5000.0);
    var bought := account.BuyShares("AAPL", 10);
    value := account.PortfolioValue();
    Valuation.HoldingsValueSplit(account.holdings, "AAPL");
    assert account.holdings - {"AAPL"} == map[];
  }

  method TestGetProfitLoss() returns (account: Account, profitLoss: real)
    ensures account.Valid()
    ensures profitLoss == account.balance + Valuation.HoldingsValue(account.holdings) - 5000.0
    ensures profitLoss == 0.0
  {
    account := new Account("test_account", 5000.0);
    var bought := account.BuyShares("AAPL", 10);
    profitLoss := account.ProfitLoss();
    Valuation.HoldingsValueSplit(account.holdings, "AAPL");
    assert account.holdings - {"AAPL"} == map[];
  }

  method TestGetHoldings() returns (holdings: map<string, int>)
    ensures "AAPL" in holdings && holdings["AAPL"] == 10
  {
    var account := new Account("test_account", 5000.0);
    var bought := account.BuyShares("AAPL", 10);
    holdings := account.GetHoldings();
  }

  method TestGetTransactions() returns (log: seq<Transaction>)
    ensures |log| == 2 && log[0].kind == DepositTx && log[1].kind == DepositTx
  {
    var account := new Account("test_account", 1000.0);
    var deposited := account.Deposit(500.0);
    log := account.GetTransactions();
  }
}
