/** The canonical transaction shape: the dictionary with keys `signature`,
    `purchase_time`, `sell_time`, `token_symbol` and `amount` that the Solana
    normaliser produces and the wallet processor consumes. Times are unix seconds
    (UTC); amounts and prices are Python floats, modelled as reals. */
module Transactions {
  import opened Values

  datatype Transaction = Transaction(
    signature: Value,
    purchaseTime: int,
    sellTime: int,
    tokenSymbol: string,
    amount: real)
}
