/** Results shared by the whole model. A Python exception that escapes an operation is
    modelled as an `Err` carrying the kind of failure. */
module Wrappers {

  datatype Option<+T> = None | Some(value: T)

  /** Why an operation raised instead of returning. */
  datatype Error =
    | ProviderError  // whatever CoinMarketCap raised after CoinGecko had failed
    | TypeError      // `blockTime + 3600` on a non-integer, `len` of None or of an int
    | ValueError     // sale before purchase (only the checked holding period raises this)

  datatype Result<+T> = Ok(value: T) | Err(error: Error)
}
