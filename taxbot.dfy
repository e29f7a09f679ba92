/** The wallet aggregation loop of `process_wallet` (src/taxbot.py). The transaction
    source is the input sequence and the price lookup is a function from a token and a
    unix timestamp to a price, None standing for the exception that aborts the loop. */
module TaxBot {
  import opened Wrappers
  import opened Transactions
  import opened TaxRules

  /** `fetch_historical_price(token_symbol, timestamp)` as the wallet processor sees it. */
  type PriceLookup = (string, int) -> Option<real>

  /** The returned dictionary `{"total_profit": ..., "total_tax": ...}`. */
  datatype TaxSummary = TaxSummary(totalProfit: real, totalTax: real)

  /** Both prices of the transaction can be looked up. */
  predicate Priced(tx: Transaction, price: PriceLookup) {
    price(tx.tokenSymbol, tx.purchaseTime).Some? && price(tx.tokenSymbol, tx.sellTime).Some?
  }

  predicate AllPriced(txs: seq<Transaction>, price: PriceLookup) {
    forall i :: 0 <= i < |txs| ==> Priced(txs[i], price)
  }

  /** `(sell_price - purchase_price) * amount`, the prices taken at the transaction's
      purchase and sale times for its own token. */
  function Profit(tx: Transaction, price: PriceLookup): real
    requires Priced(tx, price)
  {
    (price(tx.tokenSymbol, tx.sellTime).value - price(tx.tokenSymbol, tx.purchaseTime).value) * tx.amount
  }

  /** The tax of one transaction at the rate its holding period selects. */
  function Tax(tx: Transaction, price: PriceLookup, shortTermRate: real, longTermRate: real): real
    requires Priced(tx, price)
  {
    ApplyTaxRule(Profit(tx, price), HoldingPeriod(tx.purchaseTime, tx.sellTime), shortTermRate, longTermRate)
  }

  function TotalProfit(txs: seq<Transaction>, price: PriceLookup): real
    requires AllPriced(txs, price)
  {
    if |txs| == 0 then 0.0 else TotalProfit(txs[..|txs| - 1], price) + Profit(txs[|txs| - 1], price)
  }

  function TotalTax(txs: seq<Transaction>, price: PriceLookup, shortTermRate: real, longTermRate: real): real
    requires AllPriced(txs, price)
  {
    if |txs| == 0 then 0.0
    else
      TotalTax(txs[..|txs| - 1], price, shortTermRate, longTermRate)
      + Tax(txs[|txs| - 1], price, shortTermRate, longTermRate)
  }

  /** `process_wallet`: the totals over all transactions, or the lookup failure that
      aborts the whole wallet. No transaction is skipped. */
  method ProcessWallet(txs: seq<Transaction>, price: PriceLookup, shortTermRate: real, longTermRate: real)
    returns (r: Result<TaxSummary>)
    ensures r.Ok? <==> AllPriced(txs, price)
    ensures r.Err? ==> r.error == ProviderError
    ensures r.Ok? ==> r.value == TaxSummary(TotalProfit(txs, price),
                                            TotalTax(txs, price, shortTermRate, longTermRate))
    ensures txs == [] ==> r == Ok(TaxSummary(0.0, 0.0))
  {
    var totalProfit := 0.0;
    var totalTax := 0.0;
    var i := 0;
    while i < |txs|
      invariant 0 <= i <= |txs|
      invariant AllPriced(txs[..i], price)
      invariant totalProfit == TotalProfit(txs[..i], price)
      invariant totalTax == TotalTax(txs[..i], price, shortTermRate, longTermRate)
    {
      var tx := txs[i];
      var purchasePrice := price(tx.tokenSymbol, tx.purchaseTime);
      if purchasePrice.None? {
        return Err(ProviderError);
      }
      var sellPrice := price(tx.tokenSymbol, tx.sellTime);
      if sellPrice.None? {
        return Err(ProviderError);
      }
      var profit := (sellPrice.value - purchasePrice.value) * tx.amount;
      var holdingPeriod := HoldingPeriod(tx.purchaseTime, tx.sellTime);
      var tax := ApplyTaxRule(profit, holdingPeriod, shortTermRate, longTermRate);
      assert txs[..i + 1][..i] == txs[..i];
      totalProfit := totalProfit + profit;
      totalTax := totalTax + tax;
      i := i + 1;
    }
    assert txs[..i] == txs;
    r := Ok(TaxSummary(totalProfit, totalTax));
  }

  /** The totals of a concatenation are the sums of the totals. */
  lemma {:induction false} TotalsAppend(a: seq<Transaction>, b: seq<Transaction>, price: PriceLookup,
                                        shortTermRate: real, longTermRate: real)
    requires AllPriced(a, price) && AllPriced(b, price)
    ensures AllPriced(a + b, price)
    ensures TotalProfit(a + b, price) == TotalProfit(a, price) + TotalProfit(b, price)
    ensures TotalTax(a + b, price, shortTermRate, longTermRate)
         == TotalTax(a, price, shortTermRate, longTermRate) + TotalTax(b, price, shortTermRate, longTermRate)
    decreases |b|
  {
    assert AllPriced(a + b, price) by {
      forall i | 0 <= i < |a + b| ensures Priced((a + b)[i], price) {
        if i < |a| { assert (a + b)[i] == a[i]; } else { assert (a + b)[i] == b[i - |a|]; }
      }
    }
    if |b| > 0 {
      var b' := b[..|b| - 1];
      assert AllPriced(b', price) by {
        forall i | 0 <= i < |b'| ensures Priced(b'[i], price) { assert b'[i] == b[i]; }
      }
      assert (a + b)[..|a + b| - 1] == a + b';
      assert (a + b)[|a + b| - 1] == b[|b| - 1];
      TotalsAppend(a, b', price, shortTermRate, longTermRate);
    } else {
      assert a + b == a;
    }
  }

  /** Sum of the profits of the transactions held short-term (below 365 days), and of
      those held long-term. */
  function ShortTermProfit(txs: seq<Transaction>, price: PriceLookup): real
    requires AllPriced(txs, price)
  {
    if |txs| == 0 then 0.0
    else
      var tx := txs[|txs| - 1];
      ShortTermProfit(txs[..|txs| - 1], price)
      + (if HoldingPeriod(tx.purchaseTime, tx.sellTime) < LongTermThreshold then Profit(tx, price) else 0.0)
  }

  function LongTermProfit(txs: seq<Transaction>, price: PriceLookup): real
    requires AllPriced(txs, price)
  {
    if |txs| == 0 then 0.0
    else
      var tx := txs[|txs| - 1];
      LongTermProfit(txs[..|txs| - 1], price)
      + (if HoldingPeriod(tx.purchaseTime, tx.sellTime) < LongTermThreshold then 0.0 else Profit(tx, price))
  }

  /** The total tax is the short-term rate applied to the short-term profits plus the
      long-term rate applied to the long-term profits; the two classes partition the
      total profit. */
  lemma {:induction false} TotalTaxByClass(txs: seq<Transaction>, price: PriceLookup,
                                           shortTermRate: real, longTermRate: real)
    requires AllPriced(txs, price)
    ensures TotalProfit(txs, price) == ShortTermProfit(txs, price) + LongTermProfit(txs, price)
    ensures TotalTax(txs, price, shortTermRate, longTermRate)
         == shortTermRate * ShortTermProfit(txs, price) + longTermRate * LongTermProfit(txs, price)
    decreases |txs|
  {
    if |txs| > 0 {
      var init := txs[..|txs| - 1];
      assert AllPriced(init, price) by {
        forall i | 0 <= i < |init| ensures Priced(init[i], price) { assert init[i] == txs[i]; }
      }
      TotalTaxByClass(init, price, shortTermRate, longTermRate);
    }
  }

  /** With equal rates the total tax is that rate times the total profit. */
  lemma UniformRate(txs: seq<Transaction>, price: PriceLookup, rate: real)
    requires AllPriced(txs, price)
    ensures TotalTax(txs, price, rate, rate) == rate * TotalProfit(txs, price)
  {
    TotalTaxByClass(txs, price, rate, rate);
  }
}
