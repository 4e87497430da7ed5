/** The trip fare: internal/domain/trip_pricing.go. All amounts are kopecks. */
module TripPricing {
  import opened Prelude

  datatype PricingMode = Unknown | Fixed | Distance | Time | DistanceTime

  datatype Rates = Rates(mode: PricingMode, base: int64, fixed: int64, perKm: int64, perMinute: int64, minimum: int64)

  datatype FareError = NegativeMetrics | NegativeRates | NoRate | UnsupportedMode | ExceedsInt64

  /** The distance that the mode bills. */
  function BilledDistance(r: Rates, distance: int64): int {
    if r.mode == Time then 0 else distance
  }

  /** The duration that the mode bills. */
  function BilledDuration(r: Rates, duration: int64): int {
    if r.mode == Distance then 0 else duration
  }

  function AtLeast(x: int, floor: int): int {
    if x < floor then floor else x
  }

  function DistanceCharge(r: Rates, distance: int): int {
    (distance * r.perKm + 500) / 1000
  }

  function StartedMinutes(duration: int): int {
    if duration > 0 then (duration + 59) / 60 else 0
  }

  /** The unbounded fare of a measured trip. */
  function MeasuredPrice(r: Rates, distance: int, duration: int): int {
    AtLeast(r.base + DistanceCharge(r, distance) + StartedMinutes(duration) * r.perMinute, r.minimum)
  }

  predicate NegativeRate(r: Rates) {
    r.base < 0 || r.fixed < 0 || r.perKm < 0 || r.perMinute < 0 || r.minimum < 0
  }

  predicate HasRate(r: Rates) {
    match r.mode
    case Fixed => r.fixed > 0
    case Distance => r.perKm > 0
    case Time => r.perMinute > 0
    case DistanceTime => r.perKm != 0 || r.perMinute != 0
    case Unknown => true
  }

  function TripPrice(r: Rates, distance: int64, duration: int64): Result<int64, FareError> {
    if distance < 0 || duration < 0 then Err(NegativeMetrics)
    else if NegativeRate(r) then Err(NegativeRates)
    else if r.mode == Unknown then Err(UnsupportedMode)
    else if !HasRate(r) then Err(NoRate)
    else if r.mode == Fixed then Ok(AtLeast(r.fixed, r.minimum))
    else
      var price := MeasuredPrice(r, BilledDistance(r, distance), BilledDuration(r, duration));
      if MIN_INT64 <= price <= MAX_INT64 then Ok(price) else Err(ExceedsInt64)
  }

  /** The accumulation of a measured fare, in the order of the source. */
  method CalculateMeasuredPrice(r: Rates, distance: int, duration: int) returns (result: Result<int64, FareError>)
    ensures var price := MeasuredPrice(r, distance, duration);
            result == if MIN_INT64 <= price <= MAX_INT64 then Ok(price) else Err(ExceedsInt64)
  {
    var price: int := r.base;
    var distanceCharge := distance * r.perKm;
    distanceCharge := distanceCharge + 500;
    distanceCharge := distanceCharge / 1000;
    price := price + distanceCharge;
    if duration > 0 {
      var minutes := duration + 59;
      minutes := minutes / 60;
      minutes := minutes * r.perMinute;
      price := price + minutes;
    }
    if price < r.minimum {
      price := r.minimum;
    }
    if price < MIN_INT64 || MAX_INT64 < price {
      return Err(ExceedsInt64);
    }
    return Ok(price);
  }

  method CalculateTripPrice(r: Rates, distance: int64, duration: int64) returns (result: Result<int64, FareError>)
    ensures result == TripPrice(r, distance, duration)
  {
    if distance < 0 || duration < 0 {
      return Err(NegativeMetrics);
    }
    if r.base < 0 || r.fixed < 0 || r.perKm < 0 || r.perMinute < 0 || r.minimum < 0 {
      return Err(NegativeRates);
    }
    match r.mode {
      case Fixed =>
        if r.fixed <= 0 {
          return Err(NoRate);
        }
        var price := r.fixed;
        if price < r.minimum {
          price := r.minimum;
        }
        return Ok(price);
      case Distance =>
        if r.perKm <= 0 {
          return Err(NoRate);
        }
        result := CalculateMeasuredPrice(r, distance, 0);
      case Time =>
        if r.perMinute <= 0 {
          return Err(NoRate);
        }
        result := CalculateMeasuredPrice(r, 0, duration);
      case DistanceTime =>
        if r.perKm == 0 && r.perMinute == 0 {
          return Err(NoRate);
        }
        result := CalculateMeasuredPrice(r, distance, duration);
      case Unknown =>
        return Err(UnsupportedMode);
    }
  }

  // ----- what a fare is, without saying how it is computed -----

  /** `charge` is the distance charge to the nearest kopeck, halves rounded up. */
  predicate NearestKopeck(r: Rates, distance: int, charge: int) {
    -500 < 1000 * charge - distance * r.perKm <= 500
  }

  /** `minutes` covers the duration and its last minute was started. */
  predicate Started(duration: int, minutes: int) {
    60 * minutes - 60 < duration <= 60 * minutes
  }

  predicate LargerOf(x: int, a: int, b: int) {
    (x == a || x == b) && x >= a && x >= b
  }

  /** The documented fare of a trip, mode by mode, as a relation; none is below the minimum. */
  ghost predicate IsFare(r: Rates, distance: int64, duration: int64, price: int) {
    match r.mode
    case Fixed => LargerOf(price, r.fixed, r.minimum)
    case Distance =>
      exists charge: int :: NearestKopeck(r, distance, charge) && LargerOf(price, r.base + charge, r.minimum)
    case Time =>
      exists minutes: int :: Started(duration, minutes) && LargerOf(price, r.base + minutes * r.perMinute, r.minimum)
    case DistanceTime =>
      exists charge: int, minutes: int :: NearestKopeck(r, distance, charge) && Started(duration, minutes)
                                          && LargerOf(price, r.base + charge + minutes * r.perMinute, r.minimum)
    case Unknown => false
  }

  predicate GoodMetrics(distance: int64, duration: int64) {
    distance >= 0 && duration >= 0
  }

  predicate GoodRates(r: Rates) {
    r.base >= 0 && r.fixed >= 0 && r.perKm >= 0 && r.perMinute >= 0 && r.minimum >= 0
  }

  /** The mode is known, and the rate that it needs is set. */
  predicate Rated(r: Rates) {
    || (r.mode == Fixed && r.fixed > 0)
    || (r.mode == Distance && r.perKm > 0)
    || (r.mode == Time && r.perMinute > 0)
    || (r.mode == DistanceTime && (r.perKm > 0 || r.perMinute > 0))
  }

  predicate Billable(r: Rates, distance: int64, duration: int64) {
    GoodMetrics(distance, duration) && GoodRates(r) && Rated(r)
  }

  lemma NearestIsUnique(r: Rates, distance: int, charge: int)
    requires NearestKopeck(r, distance, charge)
    ensures charge == DistanceCharge(r, distance)
  {
  }

  lemma StartedIsUnique(duration: int, minutes: int)
    requires duration >= 0 && Started(duration, minutes)
    ensures minutes == StartedMinutes(duration)
  {
  }

  /** A measured fare is the documented one, and the only one. */
  lemma MeasuredIsTheFare(r: Rates, distance: int64, duration: int64, price: int)
    requires Billable(r, distance, duration) && r.mode != Fixed
    ensures IsFare(r, distance, duration, price) <==>
              price == MeasuredPrice(r, if r.mode == Time then 0 else distance, if r.mode == Distance then 0 else duration)
  {
    var charge, minutes := DistanceCharge(r, distance), StartedMinutes(duration);
    assert NearestKopeck(r, distance, charge) && Started(duration, minutes);
    forall c: int | NearestKopeck(r, distance, c)
      ensures c == charge
    {
      NearestIsUnique(r, distance, c);
    }
    forall m: int | Started(duration, m)
      ensures m == minutes
    {
      StartedIsUnique(duration, m);
    }
  }

  /** A price is returned exactly when the trip is billable and its documented fare fits int64, and it is that fare. */
  lemma TripPriceIsTheFare(r: Rates, distance: int64, duration: int64, price: int)
    ensures TripPrice(r, distance, duration).Ok? && TripPrice(r, distance, duration).value == price
        <==> Billable(r, distance, duration) && IsFare(r, distance, duration, price) && price <= MAX_INT64
  {
    if Billable(r, distance, duration) && r.mode != Fixed {
      MeasuredIsTheFare(r, distance, duration, price);
      MeasuredIsNonNegative(r, BilledDistance(r, distance), BilledDuration(r, duration));
    }
  }

  /** Each refusal has its own reason, and the first that applies is given. */
  lemma TripPriceRefusals(r: Rates, distance: int64, duration: int64)
    ensures var price := TripPrice(r, distance, duration);
            && (price == Err(NegativeMetrics) <==> !GoodMetrics(distance, duration))
            && (price == Err(NegativeRates) <==> GoodMetrics(distance, duration) && !GoodRates(r))
            && (price == Err(UnsupportedMode) <==> GoodMetrics(distance, duration) && GoodRates(r) && r.mode == Unknown)
            && (price == Err(NoRate) <==> GoodMetrics(distance, duration) && GoodRates(r) && r.mode != Unknown && !Rated(r))
            && (price == Err(ExceedsInt64) <==>
                  Billable(r, distance, duration) && forall p: int :: IsFare(r, distance, duration, p) ==> p > MAX_INT64)
  {
    var price := TripPrice(r, distance, duration);
    if Billable(r, distance, duration) && r.mode != Fixed {
      var p := MeasuredPrice(r, BilledDistance(r, distance), BilledDuration(r, duration));
      MeasuredIsNonNegative(r, BilledDistance(r, distance), BilledDuration(r, duration));
      MeasuredIsTheFare(r, distance, duration, p);
      forall q: int | IsFare(r, distance, duration, q)
        ensures q == p
      {
        MeasuredIsTheFare(r, distance, duration, q);
      }
    } else if Billable(r, distance, duration) {
      assert IsFare(r, distance, duration, AtLeast(r.fixed, r.minimum));
    }
  }

  lemma MeasuredIsNonNegative(r: Rates, distance: int, duration: int)
    requires !NegativeRate(r) && distance >= 0 && duration >= 0
    ensures MeasuredPrice(r, distance, duration) >= r.minimum >= 0
  {
  }

  /** Success on a longer trip implies success, at no higher price, on a shorter one. */
  lemma TripPriceMonotone(r: Rates, d1: int64, t1: int64, d2: int64, t2: int64)
    requires 0 <= d1 <= d2 && 0 <= t1 <= t2
    requires TripPrice(r, d2, t2).Ok?
    ensures TripPrice(r, d1, t1).Ok?
    ensures r.minimum <= TripPrice(r, d1, t1).value <= TripPrice(r, d2, t2).value
  {
    if r.mode != Fixed {
      var b1, b2 := BilledDistance(r, d1), BilledDistance(r, d2);
      var m1, m2 := StartedMinutes(BilledDuration(r, t1)), StartedMinutes(BilledDuration(r, t2));
      TimesMonotone(b1, b2, r.perKm);
      TimesMonotone(m1, m2, r.perMinute);
      MeasuredIsNonNegative(r, b1, BilledDuration(r, t1));
    }
  }

  lemma TimesMonotone(a: int, b: int, k: int)
    requires a <= b && k >= 0
    ensures a * k <= b * k
  {
  }
}
