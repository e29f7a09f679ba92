# Vertax tax core, modelled in Dafny

Vertax computes capital-gains tax for Solana wallet transactions. This project models the
parts of it that compute and transform data and proves properties of them:

- the holding period in whole days and the choice between the short-term and long-term
  rate (`TaxRules`);
- the price cache keyed by (unix timestamp, token) (`Cache`);
- the historical price lookup: cache first, then CoinGecko, then CoinMarketCap, storing only
  successes (`PriceFetching`);
- the wallet loop that sums profit and tax over the transactions (`TaxBot`);
- normalising raw Solana records into transactions (`Solana`);
- the four-key record parser (`TransactionParser`) and the copy of it kept in the test
  file (`TestTransactionParser`);
- removing and encrypting sensitive fields (`Privacy`).

`Wrappers`, `Values` and `Transactions` hold the shared types. `Values` defines the dynamic
Python value with the `dict.get` idiom. `Transactions` defines the five-field transaction
record.

Modelling choices:
- Python floats are Dafny `real`s. Unix times and day counts are unbounded `int`s.
- Each HTTP price provider is a function `(token, day index) -> Option<real>`, with `None`
  meaning the provider raised. The day index replaces the `YYYY-MM-DD` string: it is the
  UTC day `timestamp / 86400`, rounded down.
- The wallet loop looks prices up through a function `(token, timestamp) -> Option<real>`.
  Any `None` aborts the whole wallet, as the uncaught exception does in the source.
  `PriceFetching.CacheTransparent` proves that the caching fetcher gives exactly the
  uncached provider chain's answer as long as its cache holds only prices the fetcher
  stored itself (the lemma's `Consistent` hypothesis). A fresh fetcher's empty cache meets
  this, and every call keeps it true. Applying the lemma to each call in turn shows that
  the provider chain is the lookup the wallet loop sees. A price stored into the cache
  from outside, which the source's module-global cache allows, breaks this.
- The Fernet cipher is two functions from a key and a string to `Option<string>`.
- An exception that escapes becomes `Err` of a `Result`, named after what Python raises:
  `ProviderError` is whatever CoinMarketCap raised after CoinGecko had failed, `TypeError`
  comes from `blockTime + 3600` or from `len` of a None or integer `instructions`, and
  `ValueError` is what the test file expects for a sale before the purchase.
- The mutable global cache becomes a `CacheManager` object owned by a `PriceFetcher`
  object. The fetcher holds the two providers and a ghost log of provider requests.
  `FetchHistoricalPrice` is proved against the pure transition `Resolve`, and the lemmas
  about the lookup are stated on `Resolve`.

Where a reader might expect otherwise, the model follows the code:
- The cache key is the raw timestamp, not the day. Two timestamps on the same day use two
  cache slots (`PriceFetching.SameDayDifferentSlots`).
- The wallet loop skips nothing. The first failed price lookup aborts it.
- `calculate_holding_period` returns a negative day count when the sale comes before the
  purchase. It does not raise. The test file expects a `ValueError` there, so
  `TaxRules.CheckedHoldingPeriod` models that expected behaviour as an extension. The wallet
  loop uses the source's unchecked version.
- Rates are not validated.

## Model

| member | source | states |
|---|---|---|
| TaxRules.HoldingPeriod | src/utils/tax_rules.py:14 | `days * 86400 <= sell - purchase < (days + 1) * 86400`, i.e. `timedelta.days` floor semantics; negative exactly when the sale precedes the purchase |
| TaxRules.WholeDays | src/utils/tax_rules.py:14 | selling exactly n whole days after the purchase gives n, for every n (180, 365, -30, ...) |
| TaxRules.PartialDayDiscarded | src/utils/tax_rules.py:14 | a fraction of a day added to n whole days still gives n |
| TaxRules.LongTermExactlyAfterYear | src/utils/tax_rules.py:14-32 | the holding period reaches 365 exactly when at least 365 * 86400 seconds elapsed |
| TaxRules.ApplyTaxRule | src/utils/tax_rules.py:29-32 | below 365 days the tax is profit times the short-term rate; at 365 and above (inclusive boundary) profit times the long-term rate |
| TaxRules.TaxLinear | src/utils/tax_rules.py:29-32 | the tax is linear in profit: additive, scales with the profit, zero for zero profit, negated for a loss (no floor) |
| TaxRules.TestedCases | tests/test_tax_rules.py:19-41 | 180 and 365 whole days give 180 and 365; 1000.0 at 15 % short-term gives 150.0, at 5 % long-term gives 50.0; added boundary check (not in the tests): 364 days is still short-term |
| TaxRules.CheckedHoldingPeriod | tests/test_tax_rules.py:43-48 | extension: fails with ValueError exactly when sell < purchase, otherwise the non-negative source holding period |
| TaxRules.NegativeHoldingCase | tests/test_tax_rules.py:43-48 | the tested case (sold 30 days before buying): the source gives -30, the checked variant rejects it |
| Cache.CacheManager.constructor | src/utils/cache_manager.py:5-6 | a fresh manager has an empty cache, so every lookup misses |
| Cache.CacheManager.GetCachedPrice | src/utils/cache_manager.py:8-19 | returns the stored price exactly when (timestamp, token) is stored, None otherwise; reads only |
| Cache.CacheScenario | src/utils/cache_manager.py:5-30 | a fresh cache misses; a stored price is returned; a later store under the same key wins; the same timestamp under two tokens gives two independent slots |
| Cache.CacheManager.StorePrice | src/utils/cache_manager.py:21-30 | afterwards the slot holds the new price (overwriting any earlier one) and every other (timestamp, token) slot is unchanged |
| PriceFetching.UtcDay | src/utils/price_fetcher.py:24 | the UTC day containing the timestamp: `day * 86400 <= ts < (day + 1) * 86400` |
| PriceFetching.Resolve | src/utils/price_fetcher.py:9-33 | at most two provider requests, and every failure is ProviderError |
| PriceFetching.ProviderChain | src/utils/price_fetcher.py:26-30 | the primary's price when it succeeds, the secondary's answer otherwise |
| PriceFetching.CacheHit | src/utils/price_fetcher.py:20-22 | on a hit: the cached price, no provider request, cache unchanged |
| PriceFetching.PrimaryFirst | src/utils/price_fetcher.py:24-27 | on a miss the first request goes to CoinGecko for the timestamp's day; when it succeeds its price is returned and CoinMarketCap is never asked |
| PriceFetching.Fallback | src/utils/price_fetcher.py:28-30 | when CoinGecko fails, CoinMarketCap is asked for the same token and day and its answer decides the result |
| PriceFetching.FailureNotCached | src/utils/price_fetcher.py:26-32 | the call fails exactly on a miss where both providers fail, and then the cache is unchanged |
| PriceFetching.SuccessCached | src/utils/price_fetcher.py:32 | after a success the cache maps (timestamp, token) to the returned price and nothing else changes |
| PriceFetching.CallsUseSameDay | src/utils/price_fetcher.py:24-30 | every provider request carries the caller's token and the same UTC day of the timestamp |
| PriceFetching.RepeatHits | src/utils/price_fetcher.py:20-33 | repeating a successful call makes no provider request and returns the same price |
| PriceFetching.SameDayDifferentSlots | src/utils/price_fetcher.py:20-32 | a different timestamp of the same day misses the cache slot another timestamp filled and goes to CoinGecko again |
| PriceFetching.CacheTransparent | src/utils/price_fetcher.py:20-33 | with a cache consistent with deterministic providers, the result equals the uncached provider chain for the day, and the cache stays consistent |
| PriceFetching.PriceFetcher.constructor | src/utils/price_fetcher.py:6 | a fetcher starts with an empty cache, the given providers and an empty request log |
| PriceFetching.PriceFetcher.FetchHistoricalPrice | src/utils/price_fetcher.py:9-33 | result, new cache and appended provider requests are exactly those of Resolve on the old cache |
| PriceFetching.FetchTwice | src/utils/price_fetcher.py:20-33 | two identical calls: when the first succeeds the second returns the same price and logs no request |
| TaxBot.ProcessWallet | src/taxbot.py:20-37 | succeeds exactly when every transaction's purchase and sale prices can be looked up; then total_profit is the sum of `(sell - buy) * amount` and total_tax the sum of each profit's `apply_tax_rule` at its holding period; an empty list gives (0, 0) |
| TaxBot.TotalsAppend | src/taxbot.py:24-35 | the totals of a concatenation of transaction lists are the sums of the totals |
| TaxBot.TotalTaxByClass | src/taxbot.py:30-35 | total profit splits into short-term and long-term profit, and total tax is short rate times the first plus long rate times the second |
| TaxBot.UniformRate | src/taxbot.py:31-35 | with equal rates the total tax is that rate times the total profit |
| Solana.BlockTime | src/solana.py:35-36 | present exactly when the record's blockTime is an integer, and then equal to it |
| Solana.ParseTransactionData | src/solana.py:21-40 | fails exactly when some record lacks an integer blockTime; otherwise one transaction per record in order, with the record's signature, purchase at blockTime, sale 3600 s later (never before the purchase), token "SOL", amount 1.0 |
| TransactionParser.ParseSolanaTx | src/utils/transaction_parser.py:16-33 | exactly the keys signature, instructions, block_time and status; signature and blockTime copied or None; instructions copied or []; status copied or "unknown" |
| TransactionParser.HandleIrregularTx | src/utils/transaction_parser.py:41-61 | raises TypeError exactly when `instructions` is present and None or an integer (its `len` at line 54 fails); otherwise returns exactly the parse of its argument |
| TransactionParser.ParseDependsOnSourceKeysOnly | src/utils/transaction_parser.py:20-25 | records agreeing on signature, instructions, blockTime and status normalise identically |
| TransactionParser.ExtraKeyDropped | src/utils/transaction_parser.py:20-25 | adding any other key (partialFill, for one) changes nothing, and unless it is one of the four output keys it is absent from the output |
| TestTransactionParser.ParseSolanaTx | tests/test_transaction_parser.py:6-47 | the four keys; instructions defaults to [] and status to "unknown" |
| TestTransactionParser.HandleIrregularTx | tests/test_transaction_parser.py:50-76 | raises TypeError exactly when `instructions` is present and None or an integer (its `len` at line 68 fails); otherwise returns exactly the parse of its argument |
| TestTransactionParser.ParseMultiInstructionTx | tests/test_transaction_parser.py:79-102 | raises TypeError exactly when `instructions` is present and None or an integer (its `len` at line 94 fails); otherwise returns exactly the parse of its argument |
| TestTransactionParser.HandlePartialFillTx | tests/test_transaction_parser.py:105-126 | returns exactly the parse of its argument (its only check tests for a key) |
| TestTransactionParser.CopyAgreesWithLibrary | tests/test_transaction_parser.py:6-126 | on every input the test copy's parse and partial-fill wrapper equal the library parse, and both length-taking wrappers equal the library's `handle_irregular_tx`: they raise TypeError on the same inputs and return the library parse otherwise |
| Privacy.SanitizeTransactionData | src/utils/privacy.py:12-25 | the keys are the input keys minus the sensitive fields; kept keys keep their values |
| Privacy.SanitizeIdempotent | src/utils/privacy.py:22 | sanitizing twice equals sanitizing once |
| Privacy.SanitizedHasNoEncryptable | src/utils/privacy.py:8-9 | the encryptable fields are sensitive, so sanitized data has none of them |
| Privacy.EncryptValue | src/utils/privacy.py:28-50 | non-strings unchanged; strings replaced by the ciphertext, or unchanged when encryption fails |
| Privacy.DecryptValue | src/utils/privacy.py:53-71 | strings replaced by the plaintext, or unchanged when decryption fails; non-strings unchanged (their exception is caught) |
| Privacy.EncryptSensitiveData | src/utils/privacy.py:74-92 | same keys; every present encryptable field encrypted with encrypt_value, every other field unchanged; the input record is a value and is not changed |
| Privacy.DecryptSensitiveData | src/utils/privacy.py:95-113 | same keys; every present encryptable field decrypted with decrypt_value, every other field unchanged |
| Privacy.ValueRoundTrip | src/utils/privacy.py:39-71 | when decryption undoes every successful encryption, and a plaintext that failed to encrypt does not decrypt to something else, decrypting an encrypted value restores it |
| Privacy.RecordRoundTrip | src/utils/privacy.py:85-113 | under the same cipher condition, the field-wise decryption of the field-wise encryption is the original record |
| Privacy.EncryptThenDecrypt | src/utils/privacy.py:74-113 | under the same cipher condition (decryption undoes every successful encryption; where encryption fails, decrypting the plaintext fails or gives it back), decrypt_sensitive_data after encrypt_sensitive_data returns the original record |

## Left out

- HTTP: the CoinGecko and CoinMarketCap clients (src/utils/price_provider.py), `fetch_transactions` (src/utils/data_fetcher.py) and `connect_to_solana_rpc` are network I/O. They become the provider functions and the input transaction sequence.
- Provider behaviour over time: a provider is a fixed function, so a retry after a failure gets the same answer. A provider that recovers later is not modelled.
- src/utils/tax_report.py is not part of this model. It writes CSV and PDF files and formats floats, and it imports `calculate_tax_data`, which tax_rules.py does not define.
- Fernet itself and the random module-level key: the cipher is uninterpreted and the key is a parameter. The test's expectation that a ciphertext differs from its plaintext depends on the cipher, so it is not stated. Fernet encryption is randomised (a fresh IV and a timestamp in each token), while the modelled cipher is a fixed function of key and plaintext, so two equal plaintexts encrypt to equal ciphertexts in the model but not in the source. No contract depends on this, and the round trip holds either way.
- Logging, which has no effect on results.
- Float rounding: prices, profits and rates are exact reals.
- Time zones: `datetime.fromtimestamp` uses local time, subject to DST. The holding period is computed on UTC seconds. The provider date string `strftime('%Y-%m-%d')` is the UTC day index.
- The three-argument call of `fetch_historical_price` in src/taxbot.py:27 does not match its two-parameter definition. The lookup is abstracted as a function of token and timestamp.
- Missing transaction keys in the wallet loop (a `KeyError` in Python): a transaction is a typed record that always has all five fields.
- Python values are modelled as None, integers, strings, lists and string-keyed objects. Booleans and floats are not represented.
- Solana.ParseTransactionData: a float or boolean blockTime, which Python adds to 3600, cannot be expressed in the value model.
- Type-confusion tests (a string profit or holding period) cannot be expressed under Dafny's typing, and the source performs no such check.
- Transaction ordering in the totals is kept (the sums run in input order). Only splitting into concatenated parts is proved, not invariance under arbitrary permutation.
