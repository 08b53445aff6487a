/**
 * Sequences of ledger operations: what holds after any run of deposits,
 * withdrawals, buys and sells, whichever of them are rejected.
 */
module Traces {
  import opened Ledger
  import Valuation

  /** One call of a mutating operation of the account, with its arguments. */
  datatype Op =
    | DepositOp(amount: real)
    | WithdrawOp(amount: real)
    | BuyOp(symbol: string, quantity: int)
    | SellOp(symbol: string, quantity: int)

  /** The effect of one call: either the state is left alone, or exactly one record is appended. */
  function Apply(l: AccountState, op: Op): (r: Step)
    ensures r.outcome.Failure? ==> r.after == l
    ensures r.outcome.Success? ==>
      |r.after.transactions| == |l.transactions| + 1 &&
      r.after.transactions[..|l.transactions|] == l.transactions
    ensures WellFormed(l) ==> WellFormed(r.after)
    ensures Solvent(l) ==> Solvent(r.after)
  {
    match op
    case DepositOp(amount) => Deposit(l, amount)
    case WithdrawOp(amount) => Withdraw(l, amount)
    case BuyOp(symbol, quantity) => BuyShares(l, symbol, quantity)
    case SellOp(symbol, quantity) => SellShares(l, symbol, quantity)
  }

  /** The state after the calls `ops`, made one after another. */
  function Run(l: AccountState, ops: seq<Op>): AccountState
    decreases |ops|
  {
    if ops == [] then l else Run(Apply(l, ops[0]).after, ops[1..])
  }

  /** How many of the calls `ops` succeed when made one after another. */
  function Successes(l: AccountState, ops: seq<Op>): nat
    decreases |ops|
  {
    if ops == [] then 0
    else (if Apply(l, ops[0]).outcome.Success? then 1 else 0) + Successes(Apply(l, ops[0]).after, ops[1..])
  }

  /** No run breaks the invariant, and none from a solvent state makes the balance negative. */
  lemma {:induction false} RunKeepsInvariants(l: AccountState, ops: seq<Op>)
    requires WellFormed(l)
    ensures WellFormed(Run(l, ops))
    ensures Solvent(l) ==> Solvent(Run(l, ops))
    decreases |ops|
  {
    if ops != [] {
      RunKeepsInvariants(Apply(l, ops[0]).after, ops[1..]);
    }
  }

  /** The log only grows, and by exactly one record per successful call. */
  lemma {:induction false} RunLogGrowth(l: AccountState, ops: seq<Op>)
    ensures |Run(l, ops).transactions| == |l.transactions| + Successes(l, ops)
    ensures Run(l, ops).transactions[..|l.transactions|] == l.transactions
    decreases |ops|
  {
    if ops != [] {
      var next := Apply(l, ops[0]).after;
      RunLogGrowth(next, ops[1..]);
      assert Run(l, ops).transactions[..|l.transactions|] == Run(next, ops[1..]).transactions[..|next.transactions|][..|l.transactions|];
    }
  }

  /**
   * After any run from a new account, the log still opens with the creating
   * deposit, so profit and loss is measured against the initial deposit even
   * when later deposits were made.
   */
  lemma RunProfitLossBaseline(initialDeposit: real, ops: seq<Op>)
    ensures WellFormed(Run(Open(initialDeposit), ops))
    ensures |Run(Open(initialDeposit), ops).transactions| == 1 + Successes(Open(initialDeposit), ops)
    ensures Valuation.ProfitLoss(Run(Open(initialDeposit), ops)) ==
            Valuation.PortfolioValue(Run(Open(initialDeposit), ops)) - initialDeposit
  {
    var l := Run(Open(initialDeposit), ops);
    RunKeepsInvariants(Open(initialDeposit), ops);
    RunLogGrowth(Open(initialDeposit), ops);
    assert l.transactions[0] == l.transactions[..1][0];
    Valuation.ProfitLossBaseline(l);
  }

  /**
   * Buying shares and then selling the same number at the unchanged table
   * price restores the balance and the holdings; the log keeps both records.
   */
  lemma BuyThenSellRestores(l: AccountState, symbol: string, quantity: int)
    requires WellFormed(l) && BuyShares(l, symbol, quantity).outcome.Success?
    ensures var bought := BuyShares(l, symbol, quantity).after;
            var sold := SellShares(bought, symbol, quantity);
            sold.outcome.Success? &&
            sold.after.balance == l.balance &&
            sold.after.holdings == l.holdings &&
            |sold.after.transactions| == |l.transactions| + 2
  {
  }
}
