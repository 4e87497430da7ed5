/** Offers in Redis: a key per offer and two sets that index them, all with their own lifetimes:
    internal/redis/offer_store.go. */
module OfferStore {
  import opened Prelude
  import opened Database

  datatype Offer = Offer(order: Id, driver: Id, attempt: int, radius: int, expiresAt: Instant, createdAt: Instant, lockSeconds: int)

  datatype OfferKey = OfferKey(order: Id, driver: Id)

  // ----- Redis keys -----

  /** A stored value and the instant at which it disappears, if any. */
  datatype Slot<V> = Slot(value: V, until: Option<Instant>)

  type Lifetime = x: nat | x > 0 witness 1

  predicate Live<V>(slot: Slot<V>, now: Instant) {
    slot.until.None? || now < slot.until.value
  }

  predicate Exists<K, V>(m: map<K, Slot<V>>, now: Instant, k: K) {
    k in m && Live(m[k], now)
  }

  predicate Outlives<V, W>(a: Slot<V>, b: Slot<W>) {
    a.until.None? || (b.until.Some? && b.until.value <= a.until.value)
  }

  function Members(index: map<Id, Slot<set<Id>>>, now: Instant, k: Id): set<Id> {
    if Exists(index, now, k) then index[k].value else {}
  }

  function SAdd(index: map<Id, Slot<set<Id>>>, now: Instant, k: Id, x: Id): map<Id, Slot<set<Id>>> {
    index[k := if Exists(index, now, k) then Slot(index[k].value + {x}, index[k].until) else Slot({x}, None)]
  }

  /** A set that loses its last member is deleted. */
  function SRem(index: map<Id, Slot<set<Id>>>, now: Instant, k: Id, x: Id): map<Id, Slot<set<Id>>> {
    if !Exists(index, now, k) then index
    else if index[k].value - {x} == {} then index - {k}
    else index[k := Slot(index[k].value - {x}, index[k].until)]
  }

  function Expire(index: map<Id, Slot<set<Id>>>, now: Instant, k: Id, ttl: Lifetime): map<Id, Slot<set<Id>>> {
    if Exists(index, now, k) then index[k := Slot(index[k].value, Some(now + ttl))] else index
  }

  // ----- the store -----

  datatype Keys = Keys(offers: map<OfferKey, Slot<Offer>>, byOrder: map<Id, Slot<set<Id>>>, byDriver: map<Id, Slot<set<Id>>>)

  const NO_KEYS: Keys := Keys(map[], map[], map[])

  function Find(s: Keys, now: Instant, o: Id, d: Id): Option<Offer> {
    if Exists(s.offers, now, OfferKey(o, d)) then Some(s.offers[OfferKey(o, d)].value) else None
  }

  function Save(s: Keys, now: Instant, offer: Offer, ttl: Lifetime): Keys {
    Keys(s.offers[OfferKey(offer.order, offer.driver) := Slot(offer, Some(now + ttl))],
         Expire(SAdd(s.byOrder, now, offer.order, offer.driver), now, offer.order, ttl),
         Expire(SAdd(s.byDriver, now, offer.driver, offer.order), now, offer.driver, ttl))
  }

  function Remove(s: Keys, now: Instant, o: Id, d: Id): Keys {
    Keys(s.offers - {OfferKey(o, d)}, SRem(s.byOrder, now, o, d), SRem(s.byDriver, now, d, o))
  }

  /** The driver index after the order was taken out of the sets of some drivers. */
  function Unlisted(index: map<Id, Slot<set<Id>>>, now: Instant, drivers: set<Id>, o: Id): map<Id, Slot<set<Id>>> {
    map d | d in index && !(d in drivers && Live(index[d], now) && index[d].value - {o} == {})
      :: if d in drivers && Live(index[d], now) then Slot(index[d].value - {o}, index[d].until) else index[d]
  }

  function Clear(s: Keys, now: Instant, o: Id): Keys {
    var drivers := Members(s.byOrder, now, o);
    Keys(map k | k in s.offers && !(k.order == o && k.driver in drivers) :: s.offers[k],
         s.byOrder - {o}, Unlisted(s.byDriver, now, drivers, o))
  }

  function Pairs(o: Id, drivers: set<Id>): set<OfferKey> {
    set d | d in drivers :: OfferKey(o, d)
  }

  lemma UnlistOne(index: map<Id, Slot<set<Id>>>, now: Instant, drivers: set<Id>, o: Id, d: Id)
    ensures SRem(Unlisted(index, now, drivers, o), now, d, o) == Unlisted(index, now, drivers + {d}, o)
  {
    if d in index {
      assert index[d].value - {o} - {o} == index[d].value - {o};
    }
    assert SRem(Unlisted(index, now, drivers, o), now, d, o).Keys == Unlisted(index, now, drivers + {d}, o).Keys;
  }

  class OfferStore {
    var now: Instant
    var offers: map<OfferKey, Slot<Offer>>
    var byOrder: map<Id, Slot<set<Id>>>
    var byDriver: map<Id, Slot<set<Id>>>

    constructor ()
      ensures State() == NO_KEYS && now == 0
    {
      now, offers, byOrder, byDriver := 0, map[], map[], map[];
    }

    ghost function State(): Keys
      reads this
    {
      Keys(offers, byOrder, byDriver)
    }

    method SaveOffer(offer: Offer, ttl: Lifetime)
      modifies this`offers, this`byOrder, this`byDriver
      ensures State() == Save(old(State()), now, offer, ttl)
    {
      offers := offers[OfferKey(offer.order, offer.driver) := Slot(offer, Some(now + ttl))];
      byOrder := SAdd(byOrder, now, offer.order, offer.driver);
      byDriver := SAdd(byDriver, now, offer.driver, offer.order);
      byOrder := Expire(byOrder, now, offer.order, ttl);
      byDriver := Expire(byDriver, now, offer.driver, ttl);
    }

    method GetOffer(o: Id, d: Id) returns (offer: Option<Offer>)
      ensures offer == Find(State(), now, o, d)
    {
      if OfferKey(o, d) in offers && Live(offers[OfferKey(o, d)], now) {
        return Some(offers[OfferKey(o, d)].value);
      }
      return None;
    }

    /** When the driver's index lists his live offers, the answer is all of them, each once. */
    method ListDriverOffers(d: Id) returns (found: seq<Offer>)
      requires Keyed(State())
      ensures forall i, j :: 0 <= i < j < |found| ==> found[i].order != found[j].order
      ensures forall i :: 0 <= i < |found| ==> Find(State(), now, found[i].order, d) == Some(found[i])
      ensures DriverListed(State(), now, d) ==>
                forall o :: Find(State(), now, o, d).Some? ==> exists i :: 0 <= i < |found| && found[i].order == o
    {
      found := [];
      var all := Members(byDriver, now, d);
      var rest := all;
      while rest != {}
        invariant rest <= all
        invariant forall i, j :: 0 <= i < j < |found| ==> found[i].order != found[j].order
        invariant forall i :: 0 <= i < |found| ==>
                    Find(State(), now, found[i].order, d) == Some(found[i]) && found[i].order !in rest
        invariant forall o :: o in all && o !in rest && Find(State(), now, o, d).Some? ==>
                    exists i :: 0 <= i < |found| && found[i].order == o
        decreases rest
      {
        var o :| o in rest;
        rest := rest - {o};
        var offer := GetOffer(o, d);
        if offer.Some? {
          ghost var before := found;
          found := found + [offer.value];
          assert found[|before|].order == o;
          assert forall i :: 0 <= i < |before| ==> found[i] == before[i];
        }
      }
    }

    method ListOfferedDriverIDs(o: Id) returns (drivers: seq<Id>)
      ensures forall i, j :: 0 <= i < j < |drivers| ==> drivers[i] != drivers[j]
      ensures forall d :: d in drivers <==> d in Members(byOrder, now, o)
    {
      drivers := [];
      var rest := Members(byOrder, now, o);
      while rest != {}
        invariant rest <= Members(byOrder, now, o)
        invariant forall i, j :: 0 <= i < j < |drivers| ==> drivers[i] != drivers[j]
        invariant forall d :: d in drivers <==> d in Members(byOrder, now, o) && d !in rest
        decreases rest
      {
        var d :| d in rest;
        rest := rest - {d};
        drivers := drivers + [d];
      }
    }

    method RemoveDriverOffer(o: Id, d: Id)
      modifies this`offers, this`byOrder, this`byDriver
      ensures State() == Remove(old(State()), now, o, d)
    {
      offers := offers - {OfferKey(o, d)};
      byOrder := SRem(byOrder, now, o, d);
      byDriver := SRem(byDriver, now, d, o);
    }

    method RemoveOffers(o: Id)
      modifies this`offers, this`byOrder, this`byDriver
      ensures State() == Clear(old(State()), now, o)
    {
      var drivers := ListOfferedDriverIDs(o);
      var keys: set<OfferKey> := {};
      var n := 0;
      ghost var done: set<Id> := {};
      while n < |drivers|
        invariant 0 <= n <= |drivers| && unchanged(this`offers, this`byOrder)
        invariant forall d :: d in done <==> d in drivers[..n]
        invariant keys == Pairs(o, done)
        invariant byDriver == Unlisted(old(byDriver), now, done, o)
      {
        UnlistOne(old(byDriver), now, done, o, drivers[n]);
        keys := keys + {OfferKey(o, drivers[n])};
        byDriver := SRem(byDriver, now, drivers[n], o);
        done := done + {drivers[n]};
        n := n + 1;
      }
      offers := offers - keys;
      byOrder := byOrder - {o};
      assert done == Members(old(byOrder), now, o);
      assert offers == Clear(old(State()), now, o).offers;
    }
  }

  // ----- the indexes list the offers -----

  predicate Keyed(s: Keys) {
    forall k :: k in s.offers ==> s.offers[k].value.order == k.order && s.offers[k].value.driver == k.driver
  }

  /** The order's index lists a live offer and will do so for as long as it lives. */
  predicate UnderOrder(s: Keys, now: Instant, k: OfferKey) {
    Exists(s.offers, now, k) ==> k.driver in Members(s.byOrder, now, k.order) && Outlives(s.byOrder[k.order], s.offers[k])
  }

  /** So does the driver's index. */
  predicate UnderDriver(s: Keys, now: Instant, k: OfferKey) {
    Exists(s.offers, now, k) ==> k.order in Members(s.byDriver, now, k.driver) && Outlives(s.byDriver[k.driver], s.offers[k])
  }

  predicate OrderListed(s: Keys, now: Instant, o: Id) {
    forall k :: k in s.offers && k.order == o ==> UnderOrder(s, now, k)
  }

  predicate DriverListed(s: Keys, now: Instant, d: Id) {
    forall k :: k in s.offers && k.driver == d ==> UnderDriver(s, now, k)
  }

  lemma ListingLasts(s: Keys, now: Instant, later: Instant, o: Id, d: Id)
    requires now <= later
    ensures OrderListed(s, now, o) ==> OrderListed(s, later, o)
    ensures DriverListed(s, now, d) ==> DriverListed(s, later, d)
  {
    if OrderListed(s, now, o) {
      forall k | k in s.offers && k.order == o
        ensures UnderOrder(s, later, k)
      {
        assert UnderOrder(s, now, k);
      }
    }
    if DriverListed(s, now, d) {
      forall k | k in s.offers && k.driver == d
        ensures UnderDriver(s, later, k)
      {
        assert UnderDriver(s, now, k);
      }
    }
  }

  /** Another live offer that lives beyond `end`. */
  predicate Longer(s: Keys, now: Instant, offer: Offer, end: Instant, k: OfferKey) {
    && Exists(s.offers, now, k) && k != OfferKey(offer.order, offer.driver)
    && (s.offers[k].until.None? || s.offers[k].until.value > end)
  }

  /** Saving an offer keeps its order listed exactly when no other offer of the order outlives the new lifetime: the save
      shortens the index to it. */
  lemma SaveKeepsOrderIff(s: Keys, now: Instant, offer: Offer, ttl: Lifetime)
    requires OrderListed(s, now, offer.order)
    ensures OrderListed(Save(s, now, offer, ttl), now, offer.order)
       <==> forall k :: k in s.offers && k.order == offer.order ==> !Longer(s, now, offer, now + ttl, k)
  {
    var after, end := Save(s, now, offer, ttl), now + ttl;
    forall k | k in s.offers && k.order == offer.order
      ensures k in after.offers && (UnderOrder(after, now, k) <==> !Longer(s, now, offer, end, k))
    {
      assert UnderOrder(s, now, k);
    }
    assert UnderOrder(after, now, OfferKey(offer.order, offer.driver));
  }

  /** The same for the driver's index and the driver's other offers. */
  lemma SaveKeepsDriverIff(s: Keys, now: Instant, offer: Offer, ttl: Lifetime)
    requires DriverListed(s, now, offer.driver)
    ensures DriverListed(Save(s, now, offer, ttl), now, offer.driver)
       <==> forall k :: k in s.offers && k.driver == offer.driver ==> !Longer(s, now, offer, now + ttl, k)
  {
    var after, end := Save(s, now, offer, ttl), now + ttl;
    forall k | k in s.offers && k.driver == offer.driver
      ensures k in after.offers && (UnderDriver(after, now, k) <==> !Longer(s, now, offer, end, k))
    {
      assert UnderDriver(s, now, k);
    }
    assert UnderDriver(after, now, OfferKey(offer.order, offer.driver));
  }

  /** A saved offer is found until its lifetime is over, and listed for as long under its order and its driver; every other
      offer and member is as before. */
  lemma SaveOutcome(s: Keys, now: Instant, offer: Offer, ttl: Lifetime, later: Instant, o: Id, d: Id)
    requires now <= later
    ensures var after := Save(s, now, offer, ttl);
            if o == offer.order && d == offer.driver then
              && Find(after, later, o, d) == (if later < now + ttl then Some(offer) else None)
              && (later < now + ttl ==> d in Members(after.byOrder, later, o) && o in Members(after.byDriver, later, d))
            else
              && Find(after, later, o, d) == Find(s, later, o, d)
              && (d in Members(after.byOrder, now, o) <==> d in Members(s.byOrder, now, o))
              && (o in Members(after.byDriver, now, d) <==> o in Members(s.byDriver, now, d))
  {
  }

  /** A save touches the listing of no other order, whatever its lifetime. */
  lemma SaveSparesOrder(s: Keys, now: Instant, offer: Offer, ttl: Lifetime, o: Id)
    requires OrderListed(s, now, o) && o != offer.order
    ensures OrderListed(Save(s, now, offer, ttl), now, o)
  {
    forall k | k in Save(s, now, offer, ttl).offers && k.order == o
      ensures UnderOrder(Save(s, now, offer, ttl), now, k)
    {
      assert UnderOrder(s, now, k);
    }
  }

  lemma SaveSparesDriver(s: Keys, now: Instant, offer: Offer, ttl: Lifetime, d: Id)
    requires DriverListed(s, now, d) && d != offer.driver
    ensures DriverListed(Save(s, now, offer, ttl), now, d)
  {
    forall k | k in Save(s, now, offer, ttl).offers && k.driver == d
      ensures UnderDriver(Save(s, now, offer, ttl), now, k)
    {
      assert UnderDriver(s, now, k);
    }
  }

  lemma RemoveKeepsListing(s: Keys, now: Instant, o: Id, d: Id, p: Id, e: Id)
    ensures OrderListed(s, now, p) ==> OrderListed(Remove(s, now, o, d), now, p)
    ensures DriverListed(s, now, e) ==> DriverListed(Remove(s, now, o, d), now, e)
  {
    var after := Remove(s, now, o, d);
    if OrderListed(s, now, p) {
      forall k | k in after.offers && k.order == p
        ensures UnderOrder(after, now, k)
      {
        assert UnderOrder(s, now, k);
      }
    }
    if DriverListed(s, now, e) {
      forall k | k in after.offers && k.driver == e
        ensures UnderDriver(after, now, k)
      {
        assert UnderDriver(s, now, k);
      }
    }
  }

  lemma RemoveTakesOne(s: Keys, now: Instant, o: Id, d: Id, p: Id, e: Id)
    ensures Find(Remove(s, now, o, d), now, p, e) == if p == o && e == d then None else Find(s, now, p, e)
  {
  }

  /** Clearing an order touches no offer of another one, and of its own it leaves exactly the live ones that the order's
      index does not list: none, when the order is listed. */
  lemma ClearTakesTheListed(s: Keys, now: Instant, o: Id, p: Id, e: Id)
    ensures Find(Clear(s, now, o), now, p, e) == if p == o && e in Members(s.byOrder, now, o) then None else Find(s, now, p, e)
    ensures OrderListed(s, now, o) && p == o ==> Find(Clear(s, now, o), now, p, e) == None
  {
    if OfferKey(p, e) in s.offers && p == o && OrderListed(s, now, o) {
      assert UnderOrder(s, now, OfferKey(p, e));
    }
  }

  /** A removal takes the offer's two index entries, a clearing the order's index and its entry with each driver it listed;
      no other entry goes. */
  lemma IndexOutcomes(s: Keys, now: Instant, o: Id, d: Id, p: Id, e: Id)
    ensures var after := Remove(s, now, o, d);
            && (e in Members(after.byOrder, now, p) <==> e in Members(s.byOrder, now, p) && !(p == o && e == d))
            && (p in Members(after.byDriver, now, e) <==> p in Members(s.byDriver, now, e) && !(p == o && e == d))
    ensures var after := Clear(s, now, o);
            && (e in Members(after.byOrder, now, p) <==> e in Members(s.byOrder, now, p) && p != o)
            && (p in Members(after.byDriver, now, e) <==>
                  p in Members(s.byDriver, now, e) && !(p == o && e in Members(s.byOrder, now, o)))
  {
  }

  lemma ClearKeepsOrder(s: Keys, now: Instant, o: Id, p: Id)
    requires OrderListed(s, now, p)
    ensures OrderListed(Clear(s, now, o), now, p)
  {
    forall k | k in Clear(s, now, o).offers && k.order == p
      ensures UnderOrder(Clear(s, now, o), now, k)
    {
      assert UnderOrder(s, now, k);
    }
  }

  lemma ClearKeepsDriver(s: Keys, now: Instant, o: Id, e: Id)
    requires DriverListed(s, now, e)
    ensures DriverListed(Clear(s, now, o), now, e)
  {
    forall k | k in Clear(s, now, o).offers && k.driver == e
      ensures UnderDriver(Clear(s, now, o), now, k)
    {
      assert UnderDriver(s, now, k);
    }
  }

  // ----- runs -----

  datatype StoreStep =
    | Wait(later: Instant)
    | SaveStep(offer: Offer, ttl: Lifetime)
    | RemoveStep(order: Id, driver: Id)
    | ClearStep(order: Id)

  datatype Clocked = Clocked(now: Instant, keys: Keys)

  /** One command of the store. */
  function StoreApply(c: Clocked, step: StoreStep): Clocked {
    match step
    case Wait(later) => if later >= c.now then c.(now := later) else c
    case SaveStep(offer, ttl) => c.(keys := Save(c.keys, c.now, offer, ttl))
    case RemoveStep(o, d) => c.(keys := Remove(c.keys, c.now, o, d))
    case ClearStep(o) => c.(keys := Clear(c.keys, c.now, o))
  }

  function StoreRun(c: Clocked, steps: seq<StoreStep>): Clocked
    decreases |steps|
  {
    if steps == [] then c else StoreRun(StoreApply(c, steps[0]), steps[1..])
  }

  predicate DiesBy<V>(slot: Slot<V>, end: Instant) {
    slot.until.Some? && slot.until.value <= end
  }

  /** The order is listed, and its offers live no longer than one lifetime from now. */
  predicate OrderOk(s: Keys, now: Instant, o: Id, ttl: Lifetime) {
    OrderListed(s, now, o) && forall k :: k in s.offers && k.order == o ==> DiesBy(s.offers[k], now + ttl)
  }

  predicate DriverOk(s: Keys, now: Instant, d: Id, ttl: Lifetime) {
    DriverListed(s, now, d) && forall k :: k in s.offers && k.driver == d ==> DiesBy(s.offers[k], now + ttl)
  }

  /** Saves for this order, and for this driver, use one lifetime; others use any. */
  predicate OneOrderLifetime(step: StoreStep, o: Id, ttl: Lifetime) {
    step.SaveStep? && step.offer.order == o ==> step.ttl == ttl
  }

  predicate OneDriverLifetime(step: StoreStep, d: Id, ttl: Lifetime) {
    step.SaveStep? && step.offer.driver == d ==> step.ttl == ttl
  }

  lemma StoreApplyKeepsOrder(c: Clocked, step: StoreStep, o: Id, ttl: Lifetime)
    requires OrderOk(c.keys, c.now, o, ttl) && OneOrderLifetime(step, o, ttl)
    ensures var after := StoreApply(c, step);
            OrderOk(after.keys, after.now, o, ttl)
  {
    match step {
      case Wait(later) =>
        if later >= c.now {
          ListingLasts(c.keys, c.now, later, o, 0);
        }
      case SaveStep(offer, life) =>
        if offer.order == o {
          SaveKeepsOrderIff(c.keys, c.now, offer, life);
        } else {
          SaveSparesOrder(c.keys, c.now, offer, life, o);
        }
      case RemoveStep(p, d) => RemoveKeepsListing(c.keys, c.now, p, d, o, 0);
      case ClearStep(p) => ClearKeepsOrder(c.keys, c.now, p, o);
    }
  }

  lemma StoreApplyKeepsDriver(c: Clocked, step: StoreStep, d: Id, ttl: Lifetime)
    requires DriverOk(c.keys, c.now, d, ttl) && OneDriverLifetime(step, d, ttl)
    ensures var after := StoreApply(c, step);
            DriverOk(after.keys, after.now, d, ttl)
  {
    match step {
      case Wait(later) =>
        if later >= c.now {
          ListingLasts(c.keys, c.now, later, 0, d);
        }
      case SaveStep(offer, life) =>
        if offer.driver == d {
          SaveKeepsDriverIff(c.keys, c.now, offer, life);
        } else {
          SaveSparesDriver(c.keys, c.now, offer, life, d);
        }
      case RemoveStep(o, e) => RemoveKeepsListing(c.keys, c.now, o, e, 0, d);
      case ClearStep(o) => ClearKeepsDriver(c.keys, c.now, o, d);
    }
  }

  lemma {:induction false} StoreRunKeepsOrder(c: Clocked, steps: seq<StoreStep>, o: Id, ttl: Lifetime)
    requires OrderOk(c.keys, c.now, o, ttl) && forall i :: 0 <= i < |steps| ==> OneOrderLifetime(steps[i], o, ttl)
    ensures var after := StoreRun(c, steps);
            OrderOk(after.keys, after.now, o, ttl)
    decreases |steps|
  {
    if steps != [] {
      StoreApplyKeepsOrder(c, steps[0], o, ttl);
      StoreRunKeepsOrder(StoreApply(c, steps[0]), steps[1..], o, ttl);
    }
  }

  lemma {:induction false} StoreRunKeepsDriver(c: Clocked, steps: seq<StoreStep>, d: Id, ttl: Lifetime)
    requires DriverOk(c.keys, c.now, d, ttl) && forall i :: 0 <= i < |steps| ==> OneDriverLifetime(steps[i], d, ttl)
    ensures var after := StoreRun(c, steps);
            DriverOk(after.keys, after.now, d, ttl)
    decreases |steps|
  {
    if steps != [] {
      StoreApplyKeepsDriver(c, steps[0], d, ttl);
      StoreRunKeepsDriver(StoreApply(c, steps[0]), steps[1..], d, ttl);
    }
  }

  const NO_OFFERS: Clocked := Clocked(0, NO_KEYS)

  /** In every reachable store whose saves for an order used one lifetime, its live offers are listed under it, and a
      clearing leaves none of them, whatever lifetimes other orders used. */
  lemma OneLifetimeListsTheOrder(steps: seq<StoreStep>, o: Id, d: Id, ttl: Lifetime)
    requires forall i :: 0 <= i < |steps| ==> OneOrderLifetime(steps[i], o, ttl)
    ensures var c := StoreRun(NO_OFFERS, steps);
            && (Find(c.keys, c.now, o, d).Some? ==> d in Members(c.keys.byOrder, c.now, o))
            && Find(Clear(c.keys, c.now, o), c.now, o, d) == None
  {
    StoreRunKeepsOrder(NO_OFFERS, steps, o, ttl);
    var c := StoreRun(NO_OFFERS, steps);
    ClearTakesTheListed(c.keys, c.now, o, o, d);
    if Find(c.keys, c.now, o, d).Some? {
      assert UnderOrder(c.keys, c.now, OfferKey(o, d));
    }
  }

  /** In every reachable store whose saves for a driver used one lifetime, all his live offers are in his list. */
  lemma OneLifetimeListsTheDriver(steps: seq<StoreStep>, o: Id, d: Id, ttl: Lifetime)
    requires forall i :: 0 <= i < |steps| ==> OneDriverLifetime(steps[i], d, ttl)
    ensures var c := StoreRun(NO_OFFERS, steps);
            Find(c.keys, c.now, o, d).Some? ==> o in Members(c.keys.byDriver, c.now, d)
  {
    StoreRunKeepsDriver(NO_OFFERS, steps, d, ttl);
    var c := StoreRun(NO_OFFERS, steps);
    if Find(c.keys, c.now, o, d).Some? {
      assert UnderDriver(c.keys, c.now, OfferKey(o, d));
    }
  }

  /** With two lifetimes for one order an offer survives its clearing, out of the order's list: a longer offer to one
      driver, then a shorter one to another, and a clearing after the shorter has expired. */
  lemma MixedLifetimesLeaveAnOffer(long: Lifetime, short: Lifetime, first: Offer, second: Offer)
    requires short < long && first.order == second.order && first.driver != second.driver
    ensures var s := Save(Save(NO_KEYS, 0, first, long), 0, second, short);
            && Members(s.byOrder, short, first.order) == {}
            && Find(Clear(s, short, first.order), short, first.order, first.driver) == Some(first)
  {
  }
}
