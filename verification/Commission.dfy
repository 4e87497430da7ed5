/** Splitting a fare between driver, taxi park and platform, in wrapping 64-bit arithmetic:
    internal/domain/finance.go and the computation in internal/finance/service.go. */
module Commission {
  import opened Prelude

  const DEFAULT_BASIS_POINTS := 100
  const FULL := 10000

  datatype SplitError = InvalidRate | InvalidMoney

  /** The explicit rates of an order, weakest first; a later one overrides an earlier one. */
  datatype RateContext = RateContext(platform: int, city: Option<int>, tariff: Option<int>, park: Option<int>, driver: Option<int>)

  function Override(rate: int, explicit: Option<int>): int {
    if explicit.Some? then explicit.value else rate
  }

  function ResolveRate(c: RateContext): Result<int, SplitError> {
    var platform := if c.platform == 0 then DEFAULT_BASIS_POINTS else c.platform;
    var rate := Override(Override(Override(Override(platform, c.city), c.tariff), c.park), c.driver);
    if 0 <= rate <= FULL then Ok(rate) else Err(InvalidRate)
  }

  method ResolveCommissionRate(c: RateContext) returns (result: Result<int, SplitError>)
    ensures result == ResolveRate(c)
    ensures c.driver.Some? ==> Applies(result, c.driver.value)
    ensures c.driver.None? && c.park.Some? ==> Applies(result, c.park.value)
    ensures c.driver.None? && c.park.None? && c.tariff.Some? ==> Applies(result, c.tariff.value)
    ensures c.driver.None? && c.park.None? && c.tariff.None? && c.city.Some? ==> Applies(result, c.city.value)
    ensures c.driver.None? && c.park.None? && c.tariff.None? && c.city.None? ==> Applies(result, if c.platform == 0 then 100 else c.platform)
  {
    var rate := c.platform;
    if rate == 0 {
      rate := DEFAULT_BASIS_POINTS;
    }
    if c.city.Some? { rate := c.city.value; }
    if c.tariff.Some? { rate := c.tariff.value; }
    if c.park.Some? { rate := c.park.value; }
    if c.driver.Some? { rate := c.driver.value; }
    if rate < 0 || rate > FULL {
      return Err(InvalidRate);
    }
    return Ok(rate);
  }

  /** The answer when this rate applies: itself, unless it is out of range. */
  predicate Applies(result: Result<int, SplitError>, rate: int) {
    result == if 0 <= rate <= 10000 then Ok(rate) else Err(InvalidRate)
  }

  /** The driver's rate applies if given, else the park's, else the tariff's, else the city's, else the platform's; a
      platform rate of zero stands for one percent. */
  lemma StrongestRateApplies(c: RateContext)
    ensures var r := ResolveRate(c);
            && (c.driver.Some? ==> Applies(r, c.driver.value))
            && (c.driver.None? && c.park.Some? ==> Applies(r, c.park.value))
            && (c.driver.None? && c.park.None? && c.tariff.Some? ==> Applies(r, c.tariff.value))
            && (c.driver.None? && c.park.None? && c.tariff.None? && c.city.Some? ==> Applies(r, c.city.value))
            && (c.driver.None? && c.park.None? && c.tariff.None? && c.city.None? && c.platform != 0 ==> Applies(r, c.platform))
            && (c.driver.None? && c.park.None? && c.tariff.None? && c.city.None? && c.platform == 0 ==> Applies(r, 100))
  {
  }

  /** `amount * rate + 5000` over 10000, each operation wrapping at 64 bits. */
  function Share(amount: int64, rate: int): int {
    TruncDiv(Wrap64(Wrap64(amount * rate) + 5000), FULL)
  }

  function Commission(gross: int64, rate: int): Result<(int, int), SplitError> {
    if gross < 0 then Err(InvalidMoney)
    else if !(0 <= rate <= FULL) then Err(InvalidRate)
    else
      var commission := Share(gross, rate);
      var net := Wrap64(gross - commission);
      if commission < 0 || net < 0 then Err(InvalidMoney) else Ok((commission, net))
  }

  function PlatformFee(base: int64, rate: int): Result<int, SplitError> {
    if base < 0 then Err(InvalidMoney)
    else if !(0 <= rate <= FULL) then Err(InvalidRate)
    else
      var fee := Share(base, rate);
      if fee < 0 then Err(InvalidMoney) else Ok(fee)
  }

  datatype Split = Split(gross: int64, rate: int, commission: int, net: int, feeRate: int, fee: int)

  /** What a settlement of a completed order computes from its price and the park's two rates. */
  function SplitFare(gross: int64, driverRate: int, platformRate: int): Result<Split, SplitError> {
    var rate := ResolveRate(RateContext(driverRate, None, None, None, None));
    if rate.Err? then Err(rate.error)
    else
      var parts := Commission(gross, rate.value);
      if parts.Err? then Err(parts.error)
      else
        var feeRate := ResolveRate(RateContext(platformRate, None, None, None, None));
        if feeRate.Err? then Err(feeRate.error)
        else
          CommissionFits(gross, rate.value);
          var fee := PlatformFee(parts.value.0, feeRate.value);
          if fee.Err? then Err(fee.error)
          else Ok(Split(gross, rate.value, parts.value.0, parts.value.1, feeRate.value, fee.value))
  }

  lemma CommissionFits(gross: int64, rate: int)
    ensures Commission(gross, rate).Ok? ==>
      0 <= Commission(gross, rate).value.0 <= MAX_INT64 / FULL
  {
    ShareBound(gross, rate);
  }

  lemma ShareBound(amount: int64, rate: int)
    ensures Share(amount, rate) <= MAX_INT64 / FULL
  {
    var x := Wrap64(Wrap64(amount * rate) + 5000);
    assert x <= MAX_INT64;
  }

  lemma SmallProduct(amount: int, rate: int)
    requires 0 <= amount && 0 <= rate <= FULL
    ensures 0 <= amount * rate <= amount * FULL
  {
  }

  /** `part` is the share of `amount` at `rate`, to the nearest kopeck. */
  predicate NearestShare(amount: int, rate: int, part: int) {
    -5000 < FULL * part - amount * rate <= 5000
  }

  /** The computed share is the rounded one exactly when the intermediate product does not overflow. */
  lemma ShareIsRoundedIffNoOverflow(amount: int64, rate: int)
    requires 0 <= amount && 0 <= rate <= FULL
    ensures NearestShare(amount, rate, Share(amount, rate)) <==> amount * rate + 5000 <= MAX_INT64
  {
    SmallProduct(amount, rate);
    var exact := amount * rate + 5000;
    if exact > MAX_INT64 {
      var inner: int := Wrap64(amount * rate);
      var j := WrapByWords(amount * rate);
      var k := WrapByWords(inner + 5000);
      assert Wrap64(inner + 5000) == exact - (j + k) * WORD;
      assert j + k >= 1;
    }
  }

  /** The product never overflows for the fee, because its base is itself a commission. */
  lemma FeeNeverOverflows(gross: int64, rate: int, feeRate: int)
    requires Commission(gross, rate).Ok? && 0 <= feeRate <= FULL
    ensures var base := Commission(gross, rate).value.0;
            MIN_INT64 <= base <= MAX_INT64 &&
            base * feeRate + 5000 <= MAX_INT64
  {
    CommissionFits(gross, rate);
    SmallProduct(Commission(gross, rate).value.0, feeRate);
  }

  /** Every successful split conserves the gross amount and nests fee, commission and gross;
      the fee is always rounded correctly. */
  lemma SplitConserves(gross: int64, driverRate: int, platformRate: int)
    requires SplitFare(gross, driverRate, platformRate).Ok?
    ensures var s := SplitFare(gross, driverRate, platformRate).value;
            && s.gross == gross == s.commission + s.net
            && 0 <= s.fee <= s.commission <= gross
            && NearestShare(s.commission, s.feeRate, s.fee)
  {
    var s := SplitFare(gross, driverRate, platformRate).value;
    CommissionFits(gross, s.rate);
    FeeNeverOverflows(gross, s.rate, s.feeRate);
    ShareIsRoundedIffNoOverflow(s.commission, s.feeRate);
    SmallProduct(s.commission, s.feeRate);
  }

  /** Below the bound a split always succeeds on valid rates, and its commission is rounded correctly. */
  lemma SplitSucceedsBelowBound(gross: int64, driverRate: int, platformRate: int)
    requires 0 <= gross <= (MAX_INT64 - 5000) / FULL
    requires 0 <= driverRate <= FULL && 0 <= platformRate <= FULL
    ensures var split := SplitFare(gross, driverRate, platformRate);
            split.Ok? && NearestShare(gross, split.value.rate, split.value.commission)
  {
    var rate := ResolveRate(RateContext(driverRate, None, None, None, None)).value;
    SmallProduct(gross, rate);
    ShareIsRoundedIffNoOverflow(gross, rate);
    var feeRate := ResolveRate(RateContext(platformRate, None, None, None, None)).value;
    FeeNeverOverflows(gross, rate, feeRate);
    ShareIsRoundedIffNoOverflow(Commission(gross, rate).value.0, feeRate);
    SmallProduct(Commission(gross, rate).value.0, feeRate);
  }

  /** A split names the driver's rate for the commission and the platform's for the fee, one percent where one is zero. */
  lemma SplitNamesItsRates(gross: int64, driverRate: int, platformRate: int)
    requires SplitFare(gross, driverRate, platformRate).Ok?
    ensures var s := SplitFare(gross, driverRate, platformRate).value;
            && s.rate == (if driverRate == 0 then 100 else driverRate)
            && s.feeRate == (if platformRate == 0 then 100 else platformRate)
  {
    StrongestRateApplies(RateContext(driverRate, None, None, None, None));
    StrongestRateApplies(RateContext(platformRate, None, None, None, None));
  }

  /** Past the bound a split can still succeed with a wrong commission: at the full rate, this fare
      is charged a fraction of itself. */
  lemma SplitCanLoseCommission()
    ensures var split := SplitFare(1844674407370957, FULL, FULL);
            && split.Ok?
            && split.value.commission < 10
            && !NearestShare(1844674407370957, FULL, split.value.commission)
  {
    assert Wrap64(1844674407370957 * FULL) == 1844674407370957 * FULL - WORD;
  }
}
