/** The fixed share-price table consulted by every trade (get_share_price). */
module Prices {
  import opened Wrappers

  /** The only symbols the table knows. */
  const Listed: set<string> := {"AAPL", "TSLA", "GOOGL"}

  /** The price of one share of `symbol`, or None where the source raises ValueError. */
  function SharePrice(symbol: string): (r: Option<real>)
    ensures r.Some? <==> symbol in Listed
    ensures r.Some? ==> r.value > 0.0
  {
    if symbol == "AAPL" then Some(170.0)
    else if symbol == "TSLA" then Some(250.0)
    else if symbol == "GOOGL" then Some(2700.0)
    else None
  }

  /** The price of a symbol known to be listed: the lookup cannot fail. */
  function ListedPrice(symbol: string): (p: real)
    requires symbol in Listed
    ensures SharePrice(symbol) == Some(p)
    ensures p > 0.0
  {
    SharePrice(symbol).value
  }

  /** The table's contents, as the unit test of the price lookup states them. */
  lemma PriceTable()
    ensures SharePrice("AAPL") == Some(170.0)
    ensures SharePrice("TSLA") == Some(250.0)
    ensures SharePrice("GOOGL") == Some(2700.0)
    ensures SharePrice("INVALID") == None
    ensures forall s | s !in Listed :: SharePrice(s) == None
  {
  }
}
