/** Holding period and rate selection for a single disposal (src/utils/tax_rules.py).
    Instants are unix seconds; `timedelta.days` of a difference of datetimes is the
    floor of the elapsed seconds divided by 86400. Dafny's `/` on `int` is Euclidean,
    which coincides with floor division for the positive divisor used here. */
module TaxRules {
  import opened Wrappers

  const SecondsPerDay: int := 86400

  /** Days from the start of the short-term band to the first long-term day. */
  const LongTermThreshold: int := 365

  /** `(sell_date - purchase_date).days`: whole days elapsed, rounded down, so a sale one
      second before the purchase gives -1. */
  function HoldingPeriod(purchaseTime: int, sellTime: int): (days: int)
    ensures days * SecondsPerDay <= sellTime - purchaseTime < (days + 1) * SecondsPerDay
    ensures days < 0 <==> sellTime < purchaseTime
  {
    (sellTime - purchaseTime) / SecondsPerDay
  }

  /** The floor characterisation determines the day count uniquely. */
  lemma {:induction false} FloorDaysUnique(elapsed: int, d: int, e: int)
    requires d * SecondsPerDay <= elapsed < (d + 1) * SecondsPerDay
    requires e * SecondsPerDay <= elapsed < (e + 1) * SecondsPerDay
    ensures d == e
  {
    assert d * SecondsPerDay < (e + 1) * SecondsPerDay;
    assert e * SecondsPerDay < (d + 1) * SecondsPerDay;
  }

  /** Selling exactly n whole days after the purchase gives a holding period of n
      (for instance 180 or 365 days), whatever the sign of n. */
  lemma WholeDays(purchaseTime: int, n: int)
    ensures HoldingPeriod(purchaseTime, purchaseTime + n * SecondsPerDay) == n
  {
    var sellTime := purchaseTime + n * SecondsPerDay;
    FloorDaysUnique(sellTime - purchaseTime, HoldingPeriod(purchaseTime, sellTime), n);
  }

  /** A fraction of a day is discarded: adding less than a day of seconds to a whole
      number of days does not change the count. */
  lemma PartialDayDiscarded(purchaseTime: int, n: int, extra: int)
    requires 0 <= extra < SecondsPerDay
    ensures HoldingPeriod(purchaseTime, purchaseTime + n * SecondsPerDay + extra) == n
  {
    var sellTime := purchaseTime + n * SecondsPerDay + extra;
    FloorDaysUnique(sellTime - purchaseTime, HoldingPeriod(purchaseTime, sellTime), n);
  }

  /** The holding becomes long-term exactly when 365 * 86400 seconds or more have elapsed. */
  lemma LongTermExactlyAfterYear(purchaseTime: int, sellTime: int)
    ensures HoldingPeriod(purchaseTime, sellTime) >= LongTermThreshold
        <==> sellTime - purchaseTime >= LongTermThreshold * SecondsPerDay
  {
    var d := HoldingPeriod(purchaseTime, sellTime);
    if d >= LongTermThreshold {
      assert d * SecondsPerDay >= LongTermThreshold * SecondsPerDay;
    } else {
      assert d + 1 <= LongTermThreshold;
      assert (d + 1) * SecondsPerDay <= LongTermThreshold * SecondsPerDay;
    }
  }

  /** `apply_tax_rule`: below 365 days the short-term rate applies; 365 days and more
      (inclusive boundary) take the long-term rate. No floor at zero, no rate checks. */
  function ApplyTaxRule(profit: real, holdingPeriod: int, shortTermRate: real, longTermRate: real): (tax: real)
    ensures holdingPeriod < LongTermThreshold ==> tax == profit * shortTermRate
    ensures holdingPeriod >= LongTermThreshold ==> tax == profit * longTermRate
  {
    if holdingPeriod < LongTermThreshold then profit * shortTermRate else profit * longTermRate
  }

  /** The tax is linear in the profit: sums and scalings of profits carry over to the tax,
      a zero profit owes zero, and a loss gives a negative tax at the same rate. */
  lemma TaxLinear(p: real, q: real, c: real, holdingPeriod: int, shortTermRate: real, longTermRate: real)
    ensures ApplyTaxRule(p + q, holdingPeriod, shortTermRate, longTermRate)
         == ApplyTaxRule(p, holdingPeriod, shortTermRate, longTermRate)
          + ApplyTaxRule(q, holdingPeriod, shortTermRate, longTermRate)
    ensures ApplyTaxRule(c * p, holdingPeriod, shortTermRate, longTermRate)
         == c * ApplyTaxRule(p, holdingPeriod, shortTermRate, longTermRate)
    ensures ApplyTaxRule(0.0, holdingPeriod, shortTermRate, longTermRate) == 0.0
    ensures ApplyTaxRule(-p, holdingPeriod, shortTermRate, longTermRate)
         == -ApplyTaxRule(p, holdingPeriod, shortTermRate, longTermRate)
  {
  }

  /** The worked cases from the tests: a profit of 1000.0 held 180 days at 15 % owes 150.0,
      held exactly 365 days at 5 % owes 50.0. Added beside them: 364 days is still short-term. */
  lemma TestedCases(purchaseTime: int)
    ensures HoldingPeriod(purchaseTime, purchaseTime + 180 * SecondsPerDay) == 180
    ensures HoldingPeriod(purchaseTime, purchaseTime + 365 * SecondsPerDay) == 365
    ensures ApplyTaxRule(1000.0, 180, 0.15, 0.05) == 150.0
    ensures ApplyTaxRule(1000.0, 365, 0.15, 0.05) == 50.0
    ensures ApplyTaxRule(1000.0, 364, 0.15, 0.05) == 150.0
  {
    WholeDays(purchaseTime, 180);
    WholeDays(purchaseTime, 365);
  }

  /** Not in the source: the holding period its test expects, which rejects a sale before
      the purchase instead of returning a negative count. */
  function CheckedHoldingPeriod(purchaseTime: int, sellTime: int): (r: Result<int>)
    ensures r.Err? <==> sellTime < purchaseTime
    ensures r.Err? ==> r.error == ValueError
    ensures r.Ok? ==> r.value >= 0 && r.value == HoldingPeriod(purchaseTime, sellTime)
  {
    if sellTime < purchaseTime then Err(ValueError) else Ok(HoldingPeriod(purchaseTime, sellTime))
  }

  /** The tested case: bought 2023-01-01, sold 30 days earlier. The source returns -30;
      the checked variant the test asks for rejects it. */
  lemma NegativeHoldingCase()
    ensures HoldingPeriod(1672531200, 1672531200 - 30 * SecondsPerDay) == -30
    ensures CheckedHoldingPeriod(1672531200, 1672531200 - 30 * SecondsPerDay) == Err(ValueError)
  {
    WholeDays(1672531200, -30);
  }
}
