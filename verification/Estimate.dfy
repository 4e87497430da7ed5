/** The estimate shown to a passenger: the tariff loop of internal/passenger/order_service.go. */
module Estimate {
  import opened Prelude
  import opened TripPricing

  datatype ParkTariff = ParkTariff(id: nat, park: nat, rates: Rates)

  datatype Estimate =
    | Available(average: int64, minimum: int64, maximum: int64, kept: seq<nat>, prices: seq<int64>, excluded: seq<nat>)
    | Unavailable(excluded: seq<nat>)
    | SumOverflow

  /** A tariff priced for the route: `Some` exactly for a usable, positive price. */
  datatype Quote = Quote(park: nat, price: Option<int64>)

  function QuoteOf(t: ParkTariff, distance: int64, duration: int64): Quote {
    var price := TripPrice(t.rates, distance, duration);
    Quote(t.park, if price.Ok? && price.value > 0 then Some(price.value) else None)
  }

  function Quotes(tariffs: seq<ParkTariff>, distance: int64, duration: int64): (quotes: seq<Quote>)
    ensures |quotes| == |tariffs|
  {
    if tariffs == [] then []
    else
      var last := |tariffs| - 1;
      Quotes(tariffs[..last], distance, duration) + [QuoteOf(tariffs[last], distance, duration)]
  }

  lemma {:induction false} QuoteAt(tariffs: seq<ParkTariff>, distance: int64, duration: int64, i: nat)
    requires i < |tariffs|
    ensures Quotes(tariffs, distance, duration)[i] == QuoteOf(tariffs[i], distance, duration)
  {
    if i < |tariffs| - 1 {
      QuoteAt(tariffs[..|tariffs| - 1], distance, duration, i);
    }
  }

  /** A tariff is quoted at the documented fare of the route, where there is one and it is positive. */
  lemma QuotesAreFares(tariffs: seq<ParkTariff>, distance: int64, duration: int64, i: nat, price: int64)
    requires i < |tariffs|
    ensures var quote, rates := Quotes(tariffs, distance, duration)[i], tariffs[i].rates;
            && quote.park == tariffs[i].park
            && (quote.price == Some(price) <==>
                  price > 0 && Billable(rates, distance, duration) && IsFare(rates, distance, duration, price))
  {
    QuoteAt(tariffs, distance, duration, i);
    TripPriceIsTheFare(tariffs[i].rates, distance, duration, price);
  }

  /** Position `i` holds the first validly priced tariff of its park. */
  predicate FirstOfItsPark(quotes: seq<Quote>, i: nat)
    requires i < |quotes|
  {
    quotes[i].price.Some? && !ParkSeen(quotes, i)
  }

  predicate ParkSeen(quotes: seq<Quote>, i: nat)
    requires i < |quotes|
  {
    exists j :: 0 <= j < i && quotes[j].park == quotes[i].park && quotes[j].price.Some?
  }

  /** The kept positions among the first `n`, in list order. */
  ghost function Kept(quotes: seq<Quote>, n: nat): (kept: seq<nat>)
    requires n <= |quotes|
    ensures |kept| <= n && forall k :: 0 <= k < |kept| ==> kept[k] < n
  {
    if n == 0 then []
    else
      var before := Kept(quotes, n - 1);
      if FirstOfItsPark(quotes, n - 1) then before + [n - 1] else before
  }

  /** The kept positions are exactly the first valid ones of their parks, in list order and each once. */
  lemma {:induction false} KeptIsExact(quotes: seq<Quote>, n: nat)
    requires n <= |quotes|
    ensures var kept := Kept(quotes, n);
            && (forall i: nat :: i in kept <==> i < n && FirstOfItsPark(quotes, i))
            && (forall a, b :: 0 <= a < b < |kept| ==> kept[a] < kept[b])
  {
    if n > 0 {
      KeptIsExact(quotes, n - 1);
    }
  }

  /** The positions among the first `n` that could not be priced while their park had no price yet. */
  ghost function Excluded(quotes: seq<Quote>, n: nat): (excluded: seq<nat>)
    requires n <= |quotes|
  {
    if n == 0 then []
    else
      var before := Excluded(quotes, n - 1);
      if quotes[n - 1].price.None? && !ParkSeen(quotes, n - 1) then before + [n - 1] else before
  }

  /** Excluded are exactly the tariffs without a price whose park had none yet, in list order and each once. */
  lemma {:induction false} ExcludedIsExact(quotes: seq<Quote>, n: nat)
    requires n <= |quotes|
    ensures var excluded := Excluded(quotes, n);
            && (forall i: nat :: i in excluded <==>
                  i < n && quotes[i].price.None? && forall j :: 0 <= j < i && quotes[j].park == quotes[i].park ==> quotes[j].price.None?)
            && (forall a, b :: 0 <= a < b < |excluded| ==> excluded[a] < excluded[b])
            && (forall a :: 0 <= a < |excluded| ==> excluded[a] < n)
  {
    if n > 0 {
      ExcludedIsExact(quotes, n - 1);
    }
  }

  function PriceAt(quotes: seq<Quote>, i: nat): int64
    requires i < |quotes|
  {
    if quotes[i].price.Some? then quotes[i].price.value else 0
  }

  ghost function Prices(quotes: seq<Quote>, kept: seq<nat>): seq<int64>
    requires forall k :: 0 <= k < |kept| ==> kept[k] < |quotes|
  {
    seq(|kept|, k requires 0 <= k < |kept| => PriceAt(quotes, kept[k]))
  }

  ghost function KeptPrices(quotes: seq<Quote>): seq<int64> {
    Prices(quotes, Kept(quotes, |quotes|))
  }

  predicate Positive(quotes: seq<Quote>) {
    forall i :: 0 <= i < |quotes| && quotes[i].price.Some? ==> quotes[i].price.value > 0
  }

  /** `average` is the mean of the prices to the nearest kopeck, halves up. */
  predicate IsRoundedMean(average: int, total: int, count: nat) {
    count > 0 && 2 * count * average <= 2 * total + count < 2 * count * (average + 1)
  }

  /** The integer expression of the source computes the rounded mean, and no part of it leaves int64. */
  method RoundedAverage(total: int64, count: int64) returns (average: int64)
    requires 0 < count && 0 <= total && 2 * count <= MAX_INT64
    ensures IsRoundedMean(average, total, count)
  {
    QuotientBounds(total, count);
    var part: int64 := total % count + count / 2;
    QuotientBounds(part, count);
    ghost var q, up := total / count, part / count;
    Distribute(count, q, up);
    Distribute(count, q + up, 1);
    assert 2 * count * (q + up) == 2 * ((q + up) * count);
    assert 2 * count * (q + up + 1) == 2 * ((q + up + 1) * count);
    assert 2 * ((q + up) * count) <= 2 * total + count < 2 * ((q + up + 1) * count);
    if q + up > MAX_INT64 {
      CancelFactor(count, total + 1, q + up);
    }
    average := total / count + part / count;
  }

  lemma QuotientBounds(x: nat, y: nat)
    requires y > 0
    ensures 0 <= x / y && x / y * y <= x < x / y * y + y
    ensures x % y == x - x / y * y
  {
  }

  lemma Distribute(n: int, a: int, b: int)
    ensures (a + b) * n == a * n + b * n
  {
  }

  lemma CancelFactor(n: int, a: int, b: int)
    requires n > 0 && n * a < n * b
    ensures a < b
  {
  }

  lemma {:induction false} SumBetween(s: seq<int64>, low: int, high: int)
    requires forall k :: 0 <= k < |s| ==> low <= s[k] <= high
    ensures |s| * low <= Sum(s) <= |s| * high
  {
    if s != [] {
      SumBetween(s[..|s| - 1], low, high);
      assert |s| * low == (|s| - 1) * low + low;
      assert |s| * high == (|s| - 1) * high + high;
    }
  }

  /** The mean of values between two bounds lies between them after rounding. */
  lemma RoundedMeanBetween(s: seq<int64>, low: int, high: int, average: int)
    requires s != [] && forall k :: 0 <= k < |s| ==> low <= s[k] <= high
    requires IsRoundedMean(average, Sum(s), |s|)
    ensures low <= average <= high
  {
    SumBetween(s, low, high);
    var n := |s|;
    assert 2 * n * (average + 1) == 2 * (n * (average + 1));
    CancelFactor(n, low, average + 1);
    assert 2 * n * average == 2 * (n * average);
    assert n * (high + 1) == n * high + n;
    CancelFactor(n, average, high + 1);
  }

  lemma {:induction false} SumOfPositivesGrows(s: seq<int64>, n: nat)
    requires n <= |s| && forall k :: 0 <= k < |s| ==> s[k] > 0
    ensures 0 <= Sum(s[..n]) <= Sum(s)
    decreases |s|
  {
    if n == |s| {
      assert s[..n] == s;
      if n > 0 {
        SumOfPositivesGrows(s[..n - 1], n - 1);
        assert s[..n - 1][..n - 1] == s[..n - 1];
      }
    } else {
      SumOfPositivesGrows(s[..|s| - 1], n);
      assert s[..|s| - 1][..n] == s[..n];
    }
  }

  /** `seen` holds the parks that already gave a valid price. */
  ghost predicate SeenParks(quotes: seq<Quote>, i: nat, seen: set<nat>)
    requires i <= |quotes|
  {
    forall park :: park in seen <==> exists j :: 0 <= j < i && quotes[j].park == park && quotes[j].price.Some?
  }

  /** What one round of the loop does to its bookkeeping. */
  lemma OneTariff(quotes: seq<Quote>, i: nat, seen: set<nat>)
    requires i < |quotes| && SeenParks(quotes, i, seen)
    ensures var unseen := quotes[i].park !in seen;
            && Kept(quotes, i + 1)
               == (if unseen && quotes[i].price.Some? then Kept(quotes, i) + [i] else Kept(quotes, i))
            && Excluded(quotes, i + 1)
               == (if unseen && quotes[i].price.None? then Excluded(quotes, i) + [i] else Excluded(quotes, i))
            && SeenParks(quotes, i + 1, if unseen && quotes[i].price.Some? then seen + {quotes[i].park} else seen)
  {
    assert quotes[i].park in seen <==> ParkSeen(quotes, i);
    var now := if quotes[i].price.Some? && quotes[i].park !in seen then seen + {quotes[i].park} else seen;
    forall park
      ensures park in now <==> exists j :: 0 <= j < i + 1 && quotes[j].park == park && quotes[j].price.Some?
    {
      if park in seen {
        var j :| 0 <= j < i && quotes[j].park == park && quotes[j].price.Some?;
        assert 0 <= j < i + 1;
      }
    }
  }

  predicate Extremes(prices: seq<int64>, minimum: int64, maximum: int64) {
    && (forall k :: 0 <= k < |prices| ==> 0 < minimum <= prices[k] <= maximum)
    && (prices != [] ==> minimum in prices && maximum in prices)
  }

  method NoteExtremes(prices: seq<int64>, minimum: int64, maximum: int64, price: int64) returns (low: int64, high: int64)
    requires Extremes(prices, minimum, maximum) && price > 0
    ensures Extremes(prices + [price], low, high)
  {
    low, high := minimum, maximum;
    if prices == [] || price < minimum {
      low := price;
    }
    if prices == [] || price > maximum {
      high := price;
    }
    var grown := prices + [price];
    assert grown[|prices|] == price;
    forall k | 0 <= k < |grown|
      ensures 0 < low <= grown[k] <= high
    {
      assert k < |prices| ==> grown[k] == prices[k];
    }
  }

  /** The accumulators of the loop. */
  datatype Tally = Tally(seen: set<nat>, kept: seq<nat>, prices: seq<int64>, excluded: seq<nat>,
                         total: int64, minimum: int64, maximum: int64)

  /** What the accumulators hold after `i` tariffs. */
  ghost predicate Progress(quotes: seq<Quote>, i: nat, t: Tally) {
    && i <= |quotes|
    && SeenParks(quotes, i, t.seen)
    && t.kept == Kept(quotes, i)
    && t.prices == Prices(quotes, t.kept)
    && t.excluded == Excluded(quotes, i)
    && 0 <= t.total == Sum(t.prices)
    && Extremes(t.prices, t.minimum, t.maximum)
  }

  lemma SkipSeen(quotes: seq<Quote>, i: nat, t: Tally)
    requires i < |quotes| && Progress(quotes, i, t) && quotes[i].park in t.seen
    ensures Progress(quotes, i + 1, t)
  {
    OneTariff(quotes, i, t.seen);
  }

  lemma NoteExcluded(quotes: seq<Quote>, i: nat, t: Tally)
    requires i < |quotes| && Progress(quotes, i, t) && quotes[i].park !in t.seen && quotes[i].price.None?
    ensures Progress(quotes, i + 1, t.(excluded := t.excluded + [i]))
  {
    OneTariff(quotes, i, t.seen);
  }

  lemma NotePrice(quotes: seq<Quote>, i: nat, t: Tally, next: Tally)
    requires i < |quotes| && Progress(quotes, i, t) && quotes[i].park !in t.seen && quotes[i].price.Some?
    requires next.seen == t.seen + {quotes[i].park} && next.kept == t.kept + [i] && next.excluded == t.excluded
    requires next.prices == t.prices + [quotes[i].price.value] && next.total == t.total + quotes[i].price.value >= 0
    requires Extremes(next.prices, next.minimum, next.maximum)
    ensures Progress(quotes, i + 1, next)
  {
    OneTariff(quotes, i, t.seen);
    PricesAppend(quotes, t.kept, i);
  }

  lemma NextSum(quotes: seq<Quote>, i: nat, t: Tally, price: int64)
    requires i < |quotes| && Progress(quotes, i, t) && quotes[i].park !in t.seen && quotes[i].price == Some(price)
    ensures Sum(Prices(quotes, Kept(quotes, i + 1))) == t.total + price
  {
    OneTariff(quotes, i, t.seen);
    PricesAppend(quotes, t.kept, i);
  }

  lemma NoteOverflow(quotes: seq<Quote>, i: nat, t: Tally)
    requires i < |quotes| && Progress(quotes, i, t) && quotes[i].park !in t.seen && quotes[i].price.Some? && Positive(quotes)
    requires t.total + quotes[i].price.value > MAX_INT64
    ensures Sum(KeptPrices(quotes)) > MAX_INT64
  {
    NextSum(quotes, i, t, quotes[i].price.value);
    PrefixSumBound(quotes, i + 1);
  }

  method PriceTariff(tariffs: seq<ParkTariff>, distance: int64, duration: int64, i: nat) returns (price: Option<int64>)
    requires i < |tariffs|
    ensures price == Quotes(tariffs, distance, duration)[i].price
    ensures tariffs[i].park == Quotes(tariffs, distance, duration)[i].park
  {
    QuoteAt(tariffs, distance, duration, i);
    var result := CalculateTripPrice(tariffs[i].rates, distance, duration);
    if result.Err? || result.value <= 0 {
      return None;
    }
    return Some(result.value);
  }

  /** One round of the loop. */
  method AddTariff(tariffs: seq<ParkTariff>, distance: int64, duration: int64, i: nat, t: Tally)
    returns (overflow: bool, next: Tally)
    requires i < |tariffs| && Progress(Quotes(tariffs, distance, duration), i, t)
    ensures overflow ==> Sum(KeptPrices(Quotes(tariffs, distance, duration))) > MAX_INT64
    ensures !overflow ==> Progress(Quotes(tariffs, distance, duration), i + 1, next)
  {
    ghost var quotes := Quotes(tariffs, distance, duration);
    var tariff := tariffs[i];
    QuoteAt(tariffs, distance, duration, i);
    if tariff.park in t.seen {
      SkipSeen(quotes, i, t);
      return false, t;
    }
    var quote := PriceTariff(tariffs, distance, duration, i);
    if quote.None? {
      NoteExcluded(quotes, i, t);
      return false, t.(excluded := t.excluded + [i]);
    }
    var price := quote.value;
    QuotesArePositive(tariffs, distance, duration);
    if t.total > MAX_INT64 - price {
      NoteOverflow(quotes, i, t);
      return true, t;
    }
    var minimum, maximum := NoteExtremes(t.prices, t.minimum, t.maximum, price);
    next := Tally(t.seen + {tariff.park}, t.kept + [i], t.prices + [price], t.excluded, t.total + price, minimum, maximum);
    NotePrice(quotes, i, t, next);
    overflow := false;
  }

  /** The loop over the tariffs. It overflows exactly when the kept prices sum past int64. */
  method CollectParkPrices(tariffs: seq<ParkTariff>, distance: int64, duration: int64) returns (overflow: bool, t: Tally)
    ensures overflow <==> Sum(KeptPrices(Quotes(tariffs, distance, duration))) > MAX_INT64
    ensures !overflow ==> Progress(Quotes(tariffs, distance, duration), |tariffs|, t)
  {
    t := Tally({}, [], [], [], 0, 0, 0);
    var i := 0;
    while i < |tariffs|
      invariant 0 <= i <= |tariffs|
      invariant Progress(Quotes(tariffs, distance, duration), i, t)
    {
      overflow, t := AddTariff(tariffs, distance, duration, i, t);
      if overflow {
        return;
      }
      i := i + 1;
    }
    overflow := false;
  }

  /** The estimate reports the first validly priced tariff of every park, the extremes and the rounded mean. */
  method BuildEstimate(tariffs: seq<ParkTariff>, distance: int64, duration: int64) returns (result: Estimate)
    requires 2 * |tariffs| <= MAX_INT64
    ensures var quotes := Quotes(tariffs, distance, duration);
            && (result.SumOverflow? <==> Sum(KeptPrices(quotes)) > MAX_INT64)
            && (result.Unavailable? <==> forall i :: 0 <= i < |quotes| ==> quotes[i].price.None?)
            && (!result.SumOverflow? ==> result.excluded == Excluded(quotes, |quotes|))
            && (result.Available? ==>
              && result.kept == Kept(quotes, |quotes|)
              && result.prices == KeptPrices(quotes)
              && Extremes(result.prices, result.minimum, result.maximum)
              && IsRoundedMean(result.average, Sum(result.prices), |result.prices|)
              && result.minimum <= result.average <= result.maximum)
  {
    NothingKeptIffNothingValid(Quotes(tariffs, distance, duration));
    var overflow, t := CollectParkPrices(tariffs, distance, duration);
    if overflow {
      return SumOverflow;
    }
    if t.kept == [] {
      return Unavailable(t.excluded);
    }
    var average := RoundedAverage(t.total, |t.kept|);
    RoundedMeanBetween(t.prices, t.minimum, t.maximum, average);
    return Available(average, t.minimum, t.maximum, t.kept, t.prices, t.excluded);
  }

  lemma {:induction false} QuotesArePositive(tariffs: seq<ParkTariff>, distance: int64, duration: int64)
    ensures Positive(Quotes(tariffs, distance, duration))
  {
    if tariffs != [] {
      QuotesArePositive(tariffs[..|tariffs| - 1], distance, duration);
    }
  }

  lemma {:induction false} KeptIsPrefix(quotes: seq<Quote>, n: nat, m: nat)
    requires n <= m <= |quotes|
    ensures Kept(quotes, n) <= Kept(quotes, m)
    decreases m - n
  {
    if n < m {
      KeptIsPrefix(quotes, n, m - 1);
    }
  }

  /** Later prices are positive, so a prefix never sums to more than the whole. */
  lemma PrefixSumBound(quotes: seq<Quote>, n: nat)
    requires n <= |quotes| && Positive(quotes)
    ensures Sum(Prices(quotes, Kept(quotes, n))) <= Sum(KeptPrices(quotes))
  {
    KeptIsPrefix(quotes, n, |quotes|);
    KeptIsExact(quotes, |quotes|);
    var all, some := KeptPrices(quotes), Kept(quotes, n);
    forall k | 0 <= k < |all|
      ensures all[k] > 0
    {
      assert Kept(quotes, |quotes|)[k] in Kept(quotes, |quotes|);
    }
    assert Prices(quotes, some) == all[..|some|];
    SumOfPositivesGrows(all, |some|);
  }

  lemma PricesAppend(quotes: seq<Quote>, kept: seq<nat>, i: nat)
    requires i < |quotes| && forall k :: 0 <= k < |kept| ==> kept[k] < |quotes|
    ensures Prices(quotes, kept + [i]) == Prices(quotes, kept) + [PriceAt(quotes, i)]
    ensures Sum(Prices(quotes, kept + [i])) == Sum(Prices(quotes, kept)) + PriceAt(quotes, i)
  {
    SumAppend(Prices(quotes, kept), PriceAt(quotes, i));
    assert Prices(quotes, kept + [i]) == Prices(quotes, kept) + [PriceAt(quotes, i)];
  }

  /** Nothing is kept only when no tariff at all could be priced. */
  lemma NothingKeptIffNothingValid(quotes: seq<Quote>)
    ensures Kept(quotes, |quotes|) == [] <==> forall i :: 0 <= i < |quotes| ==> quotes[i].price.None?
  {
    var kept := Kept(quotes, |quotes|);
    KeptIsExact(quotes, |quotes|);
    forall i | 0 <= i < |quotes| && quotes[i].price.Some?
      ensures kept != []
    {
      var first := FirstValid(quotes, i);
      assert first in kept;
    }
    if kept != [] {
      assert kept[0] in kept;
    }
  }

  lemma {:induction false} FirstValid(quotes: seq<Quote>, i: nat) returns (first: nat)
    requires i < |quotes| && quotes[i].price.Some?
    ensures first < |quotes| && FirstOfItsPark(quotes, first)
    decreases i
  {
    if j: nat :| j < i && quotes[j].park == quotes[i].park && quotes[j].price.Some? {
      first := FirstValid(quotes, j);
    } else {
      first := i;
    }
  }
}
