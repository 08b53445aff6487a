# Trading-account ledger

A model of the simulated trading account in
`3_crew/community_contributions/engineering_team/output/accounts.py`. An
`Account` holds a cash `balance`, a `holdings` dictionary from ticker symbol
to share count, and an append-only list of `transactions`. It is changed by
`deposit`, `withdraw`, `buy_shares` and `sell_shares`, and queried by
`get_portfolio_value`, `get_profit_loss`, `get_holdings` and
`get_transactions`. Trades are priced by `get_share_price`, which knows three
symbols at fixed prices and raises for any other.

The project has these modules:

- `Prices` (prices.dfy): the price table.
- `Ledger` (ledger.dfy): the ledger as values.
  - A transaction record and the account state.
  - The error kinds.
  - For each mutating operation, a function from the old state to an outcome and the new state.
  - The first-deposit lookup behind profit and loss.
- `Valuation` (valuation.dfy): portfolio value and profit/loss.
  - The value of the holdings is a sum over the dictionary.
  - Lemmas show that sum does not depend on iteration order.
  - Deposits and withdrawals move the portfolio value by their amount.
  - Buys and sells at the table's price leave it unchanged.
- `Traces` (traces.dfy): arbitrary sequences of calls.
  - The invariants hold after any run.
  - The log grows by exactly one record per successful call.
  - A new account's profit and loss is always measured against its initial deposit.
  - Buying and then selling the same quantity restores balance and holdings.
- `Accounts` (account.dfy): the `Account` class, with the source's fields updated in place.
  - Each mutating method is proved to leave the fields exactly as the matching `Ledger` function says.
  - Each mutating method keeps the object invariant `Valid()`, and keeps a non-negative balance non-negative.
  - `PortfolioValue` is the source's accumulating loop, proved against `Valuation.HoldingsValue`.
- `AccountTests` (account_tests.dfy): the unit tests of `test_accounts.py`.
  - Each test is a method making the same calls on a fresh `Account`.
  - The test's assertions are the method's postconditions.

Money is modelled as exact `real`, and share counts as `int`. Rejected
operations return `Failure(e)` and leave every field unchanged. The source
raises an exception in those cases.

Error kinds map to the source's exceptions as follows:

- `InvalidAmount`, `InvalidQuantity` and `UnknownSymbol` are the source's `ValueError`. `Error.IsValueError` groups them.
- `InsufficientFunds` is `InsufficientFundsError`.
- `InsufficientShares` is `InsufficientSharesError`.

`test_accounts.py` repeats the ledger (lines 8-222) before its tests. That
copy is not usable as written:

- `from datetime import datetime` (test_accounts.py:6 and :229) binds the name `datetime` to the class.
- So `datetime.datetime.now()` raises AttributeError in the constructor (test_accounts.py:80).
  - The same happens in deposit, withdraw, buy and sell (:96, :115, :140, :168).
- Every test except `test_get_share_price` would therefore fail before its first assertion.

The model follows the ledger of `accounts.py`. `AccountTests` checks the
tests' assertions against that ledger, which the test file's own copy never
reaches.

Two behaviours of the code shape the model:

- The constructor does not reject a negative initial deposit (accounts.py:67-79).
  - So `Valid()` does not include `balance >= 0`.
  - Solvency (`Ledger.Solvent`) is a separate property. Every operation preserves it, and `Ledger.Open` establishes it exactly when the initial deposit is non-negative.
- `sell_shares` checks the holding before it looks up the price (accounts.py:157-160).
  - `Ledger.SellShares` keeps that order.
  - The unknown-symbol rejection comes last and can only happen in a state outside `WellFormed`.

## Model

| member | source | states |
|---|---|---|
| `Prices.SharePrice` | 3_crew/community_contributions/engineering_team/output/accounts.py:7-25 | a price exists exactly for AAPL, TSLA and GOOGL, and every price is positive |
| `Prices.PriceTable` | 3_crew/community_contributions/engineering_team/output/test_accounts.py:233-238 | AAPL=170.0, TSLA=250.0, GOOGL=2700.0; 'INVALID', and any other symbol outside the table, has no price |
| `Ledger.Open` | 3_crew/community_contributions/engineering_team/output/accounts.py:67-79 | a new account holds the initial deposit in cash, no shares, and a one-record log with that deposit; it is well formed, and solvent exactly when the deposit is non-negative |
| `Ledger.Deposit` | 3_crew/community_contributions/engineering_team/output/accounts.py:82-95 | succeeds exactly when amount > 0; a rejection is InvalidAmount and changes nothing; success adds the amount and appends one deposit record with price = amount; keeps the invariant and solvency |
| `Ledger.Withdraw` | 3_crew/community_contributions/engineering_team/output/accounts.py:98-114 | InvalidAmount for amount <= 0, InsufficientFunds for balance < amount, success exactly when 0 < amount <= balance (the whole balance may go); a rejection changes nothing; success subtracts the amount and appends one withdraw record |
| `Ledger.BuyShares` | 3_crew/community_contributions/engineering_team/output/accounts.py:116-139 | InvalidQuantity, then UnknownSymbol, then InsufficientFunds when price*q exceeds the balance; success exactly when q > 0, the symbol is listed and price*q <= balance; a rejection changes nothing; success pays price*q, adds q to the holding (creating it), appends ('buy', symbol, q, price); keeps the invariant and leaves a non-negative balance |
| `Ledger.Reduced` | 3_crew/community_contributions/engineering_team/output/accounts.py:164-166 | the sold symbol's count drops by q and the entry is deleted when it reaches 0; other entries are untouched |
| `Ledger.SellShares` | 3_crew/community_contributions/engineering_team/output/accounts.py:142-167 | InvalidQuantity, then InsufficientShares when fewer than q are held (or none); on a well-formed state success is exactly 0 < q <= held; a rejection changes nothing; success adds price*q, reduces the holding (deleting a zero entry), appends ('sell', symbol, q, price); keeps the invariant and solvency |
| `Ledger.FirstDepositPrice` | 3_crew/community_contributions/engineering_team/output/accounts.py:189 | the price of the first deposit record in log order, or 0.0 when the log holds no deposit |
| `Valuation.SumSplit` | 3_crew/community_contributions/engineering_team/output/accounts.py:178-179 | the accumulated sum is independent of iteration order: any key can be split off first |
| `Valuation.HoldingsValueSplit` | 3_crew/community_contributions/engineering_team/output/accounts.py:177-180 | the holdings' value is any held symbol's price*quantity plus the value of the rest |
| `Valuation.HoldingsValueUpdate` | 3_crew/community_contributions/engineering_team/output/accounts.py:138 | setting a listed symbol's count to n makes the value that symbol's price*n plus the value of the other holdings |
| `Valuation.OpenPortfolioValue` | 3_crew/community_contributions/engineering_team/output/accounts.py:76-79 | a new account's portfolio value equals its initial deposit and its profit/loss is 0 |
| `Valuation.ProfitLossBaseline` | 3_crew/community_contributions/engineering_team/output/accounts.py:182-190 | on a well-formed state profit/loss is portfolio value minus the creating deposit (the log's first record) |
| `Valuation.DepositValue` | 3_crew/community_contributions/engineering_team/output/accounts.py:92-95 | a successful deposit raises the portfolio value by the amount |
| `Valuation.WithdrawValue` | 3_crew/community_contributions/engineering_team/output/accounts.py:109-114 | a successful withdrawal lowers the portfolio value by the amount |
| `Valuation.BuyKeepsValue` | 3_crew/community_contributions/engineering_team/output/accounts.py:131-138 | a successful buy leaves the portfolio value unchanged |
| `Valuation.SellKeepsValue` | 3_crew/community_contributions/engineering_team/output/accounts.py:160-166 | a successful sell leaves the portfolio value unchanged |
| `Traces.Apply` | 3_crew/community_contributions/engineering_team/output/accounts.py:82-167 | every mutating call either changes nothing (rejected) or appends exactly one record and keeps the earlier log; it keeps the invariant and solvency |
| `Traces.RunKeepsInvariants` | 3_crew/community_contributions/engineering_team/output/accounts.py:109-166 | after any sequence of calls holdings stay listed and positive and the log still opens with a deposit; from a non-negative balance it stays non-negative |
| `Traces.RunLogGrowth` | 3_crew/community_contributions/engineering_team/output/accounts.py:210-221 | after any sequence of calls the log is the old log extended by exactly one record per successful call |
| `Traces.RunProfitLossBaseline` | 3_crew/community_contributions/engineering_team/output/accounts.py:189-190 | after any calls on a new account, the log has 1 + successes records and profit/loss is portfolio value minus the initial deposit, whatever later deposits were made |
| `Traces.BuyThenSellRestores` | 3_crew/community_contributions/engineering_team/output/accounts.py:128-167 | a successful buy of q followed by a sell of q at the same price succeeds and restores balance and holdings (removing a symbol not held before), with two records appended |
| `Accounts.Account.constructor` | 3_crew/community_contributions/engineering_team/output/accounts.py:67-79 | the fields are those of `Ledger.Open(initial_deposit)` (default 0.0), the identifier is kept, and `Valid()` holds |
| `Accounts.Account.RecordTransaction` | 3_crew/community_contributions/engineering_team/output/accounts.py:210-221 | appends exactly the given record; balance and holdings unchanged |
| `Accounts.Account.Deposit` | 3_crew/community_contributions/engineering_team/output/accounts.py:82-95 | outcome and new fields are those of `Ledger.Deposit` on the old fields; keeps `Valid()` and a non-negative balance |
| `Accounts.Account.Withdraw` | 3_crew/community_contributions/engineering_team/output/accounts.py:98-114 | outcome and new fields are those of `Ledger.Withdraw`; keeps `Valid()` and a non-negative balance |
| `Accounts.Account.BuyShares` | 3_crew/community_contributions/engineering_team/output/accounts.py:116-139 | outcome and new fields are those of `Ledger.BuyShares`; keeps `Valid()` and a non-negative balance |
| `Accounts.Account.SellShares` | 3_crew/community_contributions/engineering_team/output/accounts.py:142-167 | outcome and new fields are those of `Ledger.SellShares`; keeps `Valid()` and a non-negative balance |
| `Accounts.Account.PortfolioValue` | 3_crew/community_contributions/engineering_team/output/accounts.py:170-180 | the loop's result is the balance plus the sum of price*quantity over all holdings; nothing is changed |
| `Accounts.Account.ProfitLoss` | 3_crew/community_contributions/engineering_team/output/accounts.py:182-190 | the result is the portfolio value minus the first logged deposit, which is the creating deposit |
| `Accounts.Account.GetHoldings` | 3_crew/community_contributions/engineering_team/output/accounts.py:192-199 | returns a copy equal to the holdings, every count positive and every symbol listed |
| `Accounts.Account.GetTransactions` | 3_crew/community_contributions/engineering_team/output/accounts.py:201-208 | returns a new list holding the same records as the log, in order, non-empty and opening with a deposit |
| `AccountTests.TestAccountInitialization` | 3_crew/community_contributions/engineering_team/output/test_accounts.py:240-247 | Account('test_account', 1000.0): id kept, balance 1000.0, no holdings, one deposit record of 1000.0 |
| `AccountTests.TestDeposit` | 3_crew/community_contributions/engineering_team/output/test_accounts.py:249-257 | on a default account deposit(500.0) gives 500.0 and a second deposit record of 500.0; deposit(-100.0) is a ValueError |
| `AccountTests.TestWithdraw` | 3_crew/community_contributions/engineering_team/output/test_accounts.py:259-269 | withdraw(300.0) from 1000.0 leaves 700.0 and a withdraw record; withdraw(-100.0) is a ValueError; withdraw(1500.0) is InsufficientFunds |
| `AccountTests.TestBuyShares` | 3_crew/community_contributions/engineering_team/output/test_accounts.py:271-285 | buying 10 AAPL from 5000.0 leaves 3300.0, {AAPL: 10} and a buy record at 170.0; quantity -5 is a ValueError; 5 GOOGL is InsufficientFunds |
| `AccountTests.TestSellShares` | 3_crew/community_contributions/engineering_team/output/test_accounts.py:287-305 | after buying 10 AAPL, the state after selling 5 has balance 4150.0, 5 AAPL held and 3 records, the last ('sell', AAPL, 5, 170.0); selling 5 more removes AAPL; quantity -5 is a ValueError; selling unheld TSLA is InsufficientShares |
| `AccountTests.TestGetPortfolioValue` | 3_crew/community_contributions/engineering_team/output/test_accounts.py:307-311 | after buying 10 AAPL the value is balance + held AAPL * 170.0 |
| `AccountTests.TestGetProfitLoss` | 3_crew/community_contributions/engineering_team/output/test_accounts.py:313-317 | after buying 10 AAPL profit/loss is portfolio value minus 5000.0 |
| `AccountTests.TestGetHoldings` | 3_crew/community_contributions/engineering_team/output/test_accounts.py:319-323 | after buying 10 AAPL the holdings copy holds 10 AAPL |
| `AccountTests.TestGetTransactions` | 3_crew/community_contributions/engineering_team/output/test_accounts.py:325-331 | after one more deposit the log copy has two deposit records |

## Left out

- Timestamps (`datetime.now()`) are not modelled: transactions carry no time, so the non-decreasing-time part of the log's order is not stated, only that the log is append-only.
- `Transaction.__repr__` and the exception messages are text formatting and are not modelled.
- Floating-point rounding: amounts and prices are exact reals. For example, three deposits of 0.1 on an empty account give 0.30000000000000004 in the program but exactly 0.3 in the model.
- NaN and infinity are not modelled, because reals have neither. In the source, `deposit(float('nan'))` passes the guard at accounts.py:92, since every comparison with NaN is false. `withdraw(float('nan'))` likewise passes the guards at :109 and :111. Either call makes the balance NaN. So on such inputs the program does not keep a non-negative balance, which the model does.
- Ledger.Deposit, Ledger.BuyShares, Accounts.Account.Deposit, Accounts.Account.BuyShares: amounts and costs beyond the range of a double are not modelled.
  - Python accepts an int where `float` is hinted. The guards at accounts.py:92 and :128 compare such an int exactly and let it through.
  - The arithmetic after them first converts the int to a double. For an int above about 1.8e308 that conversion raises `OverflowError`, leaving the state unchanged.
  - So `deposit(10**400)` raises at accounts.py:94, where the model accepts the deposit.
  - `buy_shares('AAPL', 10**400)` raises at accounts.py:132, where the model rejects the buy with `InsufficientFunds`.
- Fractional share counts: the model takes whole share counts (`int`) only.
  - The program does not enforce its `quantity: int` hint, since nothing before the guards at accounts.py:128 and :154 checks the type.
  - The repository's front end passes a float from a plain number field (app.py:85, :89, :93).
  - So in the program `buy_shares('AAPL', 2.5)` succeeds, costs 425.0 and stores a holding of 2.5. `Ledger.BuyShares`, `Ledger.SellShares` and the class methods cannot express such calls.
- Shared transaction records: in the model a transaction is an immutable value.
  - In the source, `get_transactions` returns a shallow copy (accounts.py:208). It is a new list, but it holds the account's own `Transaction` objects, whose fields are plain attributes (accounts.py:51-55).
  - A caller that writes through the returned list, for example `get_transactions()[0].price = 0.0`, changes the account's log. That also changes the baseline `get_profit_loss` reads (accounts.py:189).
  - So `Traces.RunLogGrowth`'s promise that earlier records are kept, and the profit/loss baseline lemmas, hold for the program only while no caller mutates the returned records.
- Accounts.Account.SellShares: takes the price with `Prices.ListedPrice`, without the unknown-symbol rejection that `Ledger.SellShares` keeps, because under `Valid()` every held symbol is listed and that branch cannot be reached.
- Concurrency and the serialisation of calls on one account are not modelled; the model is sequential.
- The Gradio front end (`app.py`), the agent and crew wiring (`crew.py`, `main.py`) and the MCP smoke test (`test-mcp.py`) are not part of this model: they are I/O and calls into external frameworks.
