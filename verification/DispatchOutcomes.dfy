/** What a call of the dispatch service does, told without its own steps: who is asked and with what offer, when a driver
    gets the order and at what price, and what the queue and the timeout set hold afterwards:
    internal/dispatch/service.go. */
module DispatchOutcomes {
  import opened Prelude
  import opened Orders
  import opened TripPricing
  import opened Database
  import opened OfferStore
  import opened Dispatch
  import opened OrderOutcomes

  // ----- requests -----

  /** A request goes through for an order that was just created or searches, without a driver: its first task is queued. */
  lemma EnqueueOutcome(s: Desk, o: Id, config: Option<Config>)
    ensures Do(s, Enqueue(o, config)) ==
            if o in s.db.orders && s.db.orders[o].status in {Created, Searching} && s.db.orders[o].driver == None then
              s.(db := Apply(s.db, BeginSearch(o)), queue := s.queue + [Task(o, 0, s.db.now, [], config)])
            else s
  {
  }

  // ----- an attempt -----

  /** The settings of a chain: its own, if it was requested with some, or else the service's; what its own leave out is
      four radii up to ten kilometres, five drivers, and fifteen, thirty and sixty seconds. */
  predicate Settings(service: NormalConfig, task: Task, c: NormalConfig) {
    match task.config
    case None => c == service
    case Some(own) =>
      && c.radii == (if own.radii == [] then [1000, 3000, 5000, 10000] else own.radii)
      && c.maxDrivers == (if own.maxDrivers > 0 then own.maxDrivers else 5)
      && c.offerTtl == (if own.offerTtl > 0 then own.offerTtl else 15_000_000)
      && c.lockTtl == (if own.lockTtl > 0 then own.lockTtl else 30_000_000)
      && c.confirmationTtl == (if own.confirmationTtl > 0 then own.confirmationTtl else 60_000_000)
  }

  /** An offer to a driver, as an attempt makes it. */
  predicate OfferOf(offer: Offer, task: Task, d: Id, now: Instant, c: NormalConfig) {
    && offer.order == task.order && offer.driver == d && offer.createdAt == now && offer.expiresAt == now + c.offerTtl
    && offer.attempt == task.attempt && 0 <= task.attempt < |c.radii| && offer.radius == c.radii[task.attempt]
  }

  /** These drivers have an offer of the order, an open one as before or a new one; nobody else's offers changed. */
  ghost predicate Offered(before: Keys, after: Keys, now: Instant, task: Task, found: seq<Id>, c: NormalConfig) {
    && (forall d :: d in found ==>
          var was, offer := Find(before, now, task.order, d), Find(after, now, task.order, d);
          offer.Some? && if was.Some? && now < was.value.expiresAt then offer == was else OfferOf(offer.value, task, d, now, c))
    && (forall o, d :: o != task.order || d !in found ==> Find(after, now, o, d) == Find(before, now, o, d))
  }

  lemma {:induction false} OfferAllOffers(keys: Keys, now: Instant, task: Task, drivers: seq<Id>, c: NormalConfig)
    requires 0 <= task.attempt < |c.radii|
    ensures Offered(keys, OfferAll(keys, now, task.order, task.attempt, c.radii[task.attempt], drivers, c), now, task, drivers, c)
  {
    if drivers != [] {
      var front, last := drivers[..|drivers| - 1], drivers[|drivers| - 1];
      var middle := OfferAll(keys, now, task.order, task.attempt, c.radii[task.attempt], front, c);
      OfferAllOffers(keys, now, task, front, c);
      OneMoreOffered(keys, middle, now, task, front, last, c);
      assert drivers == front + [last];
    }
  }

  lemma OneMoreOffered(keys: Keys, middle: Keys, now: Instant, task: Task, front: seq<Id>, last: Id, c: NormalConfig)
    requires 0 <= task.attempt < |c.radii| && Offered(keys, middle, now, task, front, c)
    ensures Offered(keys, OfferTo(middle, now, task.order, task.attempt, c.radii[task.attempt], last, c), now, task, front + [last], c)
  {
    var after := OfferTo(middle, now, task.order, task.attempt, c.radii[task.attempt], last, c);
    forall o, d
      ensures o != task.order || d != last ==> Find(after, now, o, d) == Find(middle, now, o, d)
    {
    }
    assert Find(after, now, task.order, last).Some?;
  }

  /** Those a chain will not ask: whom it excluded or asked before, and who declined. */
  ghost predicate Spared(spared: seq<Id>, task: Task, row: Order) {
    NoDuplicates(spared) && forall d :: d in spared <==> d in task.exclude || d in row.declined
  }

  /** The order is searched for at this attempt, and these are the nearest drivers that may be asked. */
  ghost predicate Finds(s: Desk, task: Task, nearby: seq<Id>, c: NormalConfig, spared: seq<Id>, found: seq<Id>) {
    && task.order in s.db.orders && Settings(s.config, task, c) && Spared(spared, task, s.db.orders[task.order])
    && NearestFirst(s.db, s.db.orders[task.order], nearby, spared, c.maxDrivers, found)
  }

  /** No radius for this attempt, or nobody found and none for the next. */
  predicate OutOfRadii(task: Task, c: NormalConfig, found: seq<Id>) {
    task.attempt < 0 || task.attempt >= |c.radii| || (found == [] && task.attempt + 1 >= |c.radii|)
  }

  /** An attempt asks the nearest drivers and sets its timer, with those spared written down, or gives the order up when it
      is out of radii. */
  ghost predicate Attempted(s: Desk, task: Task, c: NormalConfig, spared: seq<Id>, found: seq<Id>, after: Desk) {
    if OutOfRadii(task, c, found) then after == s.(db := Apply(s.db, Fail(task.order)))
    else
      && after.db == s.db && after.queue == s.queue && after.config == s.config
      && after.timeouts == s.timeouts[task.(exclude := spared) := (s.db.now + c.offerTtl) / 1000]
      && Offered(s.keys, after.keys, s.db.now, task, found, c)
  }

  lemma SearchFinds(s: Desk, task: Task, nearby: seq<Id>)
    requires task.order in s.db.orders
    ensures Finds(s, task, nearby, ConfigFor(s.config, task), Listed(s, task).exclude, Found(s, task, nearby))
  {
    DeduplicatedIsExact(task.exclude + s.db.orders[task.order].declined);
    NearestAreFound(s.db, s.db.orders[task.order], nearby, Listed(s, task).exclude, ConfigFor(s.config, task).maxDrivers);
  }

  lemma SearchGivesUp(s: Desk, task: Task, nearby: seq<Id>)
    requires task.order in s.db.orders && Exhausted(s, task, nearby)
    ensures OutOfRadii(task, ConfigFor(s.config, task), Found(s, task, nearby))
    ensures Search(s, task, nearby) == s.(db := Apply(s.db, Fail(task.order)))
  {
  }

  lemma SearchAsks(s: Desk, task: Task, nearby: seq<Id>, c: NormalConfig, found: seq<Id>, after: Desk)
    requires task.order in s.db.orders && !Exhausted(s, task, nearby) && after == Search(s, task, nearby)
    requires c == ConfigFor(s.config, task) && found == Found(s, task, nearby)
    ensures !OutOfRadii(task, c, found)
    ensures after.db == s.db && after.queue == s.queue && after.config == s.config
    ensures after.timeouts == s.timeouts[task.(exclude := Listed(s, task).exclude) := (s.db.now + c.offerTtl) / 1000]
    ensures Offered(s.keys, after.keys, s.db.now, task, found, c)
  {
    OfferAllOffers(s.keys, s.db.now, task, found, c);
  }

  lemma SearchOutcome(s: Desk, task: Task, nearby: seq<Id>, after: Desk)
    requires task.order in s.db.orders && after == Search(s, task, nearby)
    ensures exists c, spared, found :: Finds(s, task, nearby, c, spared, found) && Attempted(s, task, c, spared, found, after)
  {
    var c, spared, found := ConfigFor(s.config, task), Listed(s, task).exclude, Found(s, task, nearby);
    SearchFinds(s, task, nearby);
    if Exhausted(s, task, nearby) {
      SearchGivesUp(s, task, nearby);
    } else {
      SearchAsks(s, task, nearby, c, found, after);
    }
    assert Finds(s, task, nearby, c, spared, found) && Attempted(s, task, c, spared, found, after);
  }

  /** The desk once the oldest task has left the queue and its order searches. */
  ghost function Begun(s: Desk): Desk
    requires s.queue != []
  {
    s.(queue := s.queue[1..], db := if s.queue[0].order in s.db.orders && s.db.orders[s.queue[0].order].status == Searching
                                    then s.db else Apply(s.db, BeginSearch(s.queue[0].order)))
  }

  /** The oldest task has an order to attempt: one that searches, or was just created, without a driver. */
  predicate HasWork(s: Desk) {
    && s.queue != [] && s.queue[0].order in s.db.orders
    && var row := s.db.orders[s.queue[0].order];
       row.status == Searching || (row.status == Created && row.driver == None)
  }

  lemma WorkIsSearch(s: Desk, nearby: seq<Id>)
    requires HasWork(s)
    ensures s.queue[0].order in Begun(s).db.orders && Process(s, nearby) == Search(Begun(s), s.queue[0], nearby)
  {
    BeginSearchOutcome(s.db, s.queue[0].order);
  }

  /** The dispatch worker takes the oldest task. For an order that searches, or was just created, it makes the attempt; for
      any other order nothing else happens. */
  lemma ProcessOutcome(s: Desk, nearby: seq<Id>, after: Desk)
    requires after == Do(s, ProcessTask(nearby))
    ensures if HasWork(s) then
              exists c, spared, found ::
                Finds(Begun(s), s.queue[0], nearby, c, spared, found) && Attempted(Begun(s), s.queue[0], c, spared, found, after)
            else after == if s.queue == [] then s else s.(queue := s.queue[1..])
  {
    if HasWork(s) {
      WorkIsSearch(s, nearby);
      SearchOutcome(Begun(s), s.queue[0], nearby, after);
    }
  }

  // ----- a timeout -----

  /** The offers that the order's index lists are gone, every other one is as before. */
  ghost predicate Withdrawn(before: Keys, after: Keys, now: Instant, o: Id) {
    forall p, d :: Find(after, now, p, d) ==
      if p == o && d in Members(before.byOrder, now, o) then None else Find(before, now, p, d)
  }

  lemma ClearWithdraws(keys: Keys, now: Instant, o: Id)
    ensures Withdrawn(keys, Clear(keys, now, o), now, o)
  {
    forall p, d
      ensures Find(Clear(keys, now, o), now, p, d) == if p == o && d in Members(keys.byOrder, now, o) then None else Find(keys, now, p, d)
    {
      ClearTakesTheListed(keys, now, o, p, d);
    }
  }

  /** The next attempt of a chain: one radius wider, without those excluded or asked before, and with the chain's own
      settings. */
  ghost predicate Follows(next: Task, task: Task, offered: seq<Id>, now: Instant) {
    && next.order == task.order && next.attempt == task.attempt + 1 && next.queuedAt == now && next.config == task.config
    && NoDuplicates(next.exclude) && forall d :: d in next.exclude <==> d in task.exclude || d in offered
  }

  /** A due task of an order that still searches withdraws its offers and queues the next attempt, or gives the order up
      when there is no wider radius; of any other order it only goes. */
  lemma TimeoutOutcome(s: Desk, task: Task, offered: seq<Id>, c: NormalConfig)
    requires task.order in s.db.orders && task.attempt != -1 && task in s.timeouts && s.timeouts[task] <= s.db.now / 1000
    requires ListsAll(offered, Members(s.keys.byOrder, s.db.now, task.order)) && Settings(s.config, task, c)
    ensures var after := Do(s, HandleTimeout(task, offered));
            && after.timeouts == s.timeouts - {task} && after.config == s.config
            && if s.db.orders[task.order].status != Searching then after == s.(timeouts := s.timeouts - {task})
               else
                 && Withdrawn(s.keys, after.keys, s.db.now, task.order)
                 && if 0 <= task.attempt + 1 < |c.radii| then
                      && after.db == s.db && |after.queue| == |s.queue| + 1 && after.queue[..|s.queue|] == s.queue
                      && Follows(after.queue[|s.queue|], task, offered, s.db.now)
                    else after.db == Apply(s.db, Fail(task.order)) && after.queue == s.queue
  {
    DeduplicatedIsExact(task.exclude + offered);
    ClearWithdraws(s.keys, s.db.now, task.order);
  }

  /** A due confirmation task of a lapsed reservation lets the driver go and starts a new chain without him; of one that has
      not lapsed, or of an order whose price is not pending, it only goes; and it stays where the release fails. */
  lemma ConfirmationTimeoutOutcome(s: Desk, task: Task, offered: seq<Id>)
    requires task.order in s.db.orders && task.attempt == -1 && task in s.timeouts && s.timeouts[task] <= s.db.now / 1000
    requires ListsAll(offered, Members(s.keys.byOrder, s.db.now, task.order))
    ensures var row, after := s.db.orders[task.order], Do(s, HandleTimeout(task, offered));
            if row.confirmation == Some(Pending) && row.driver.Some? && row.expires.Some? && row.expires.value <= s.db.now then
              if row.status == DriverAssigned then
                after == s.(db := Apply(s.db, Free(task.order, row.driver.value)), timeouts := s.timeouts - {task},
                            queue := s.queue + [Task(task.order, 0, s.db.now, [row.driver.value], None)])
              else after == s
            else after == s.(timeouts := s.timeouts - {task})
  {
  }

  // ----- offers answered -----

  /** The driver has an offer of the order that is still in the store and not past its date. */
  predicate HasOpenOffer(s: Desk, o: Id, d: Id) {
    Find(s.keys, s.db.now, o, d).Some? && s.db.now <= Find(s.keys, s.db.now, o, d).value.expiresAt
  }

  /** The driver may have the order at this price: it is the documented fare of the best tariff of his park for it. */
  ghost predicate Costs(db: Db, o: Id, d: Id, i: Id, price: int) {
    && o in db.orders && d in db.drivers && Best(db.tariffs, db.drivers[d], db.orders[o], i) && db.orders[o].route.Some?
    && var route, rates := db.orders[o].route.value, db.tariffs[i].rates;
    && Billable(rates, route.distance, route.duration) && IsFare(rates, route.distance, route.duration, price)
    && 0 < price <= MAX_INT64
  }

  /** The bid of an accepting driver is at the price that the order costs him, and only then is there one. */
  lemma BidCosts(s: Desk, o: Id, d: Id, eligible: bool, i: Id, price: int)
    requires KeyedById(s.db.tariffs) && HasOpenOffer(s, o, d) && Costs(s.db, o, d, i, price) && s.db.orders[o].status == Searching
    ensures AcceptBid(s, o, d, eligible) == Some(Bid(o, d, Fare(s.db.tariffs[i], s.db.orders[o].route.value), price,
              s.db.now + s.config.confirmationTtl, !s.db.orders[o].byPark, eligible))
  {
    var route := s.db.orders[o].route.value;
    BestIsTop(s.db.tariffs, s.db.drivers[d], s.db.orders[o], i);
    TopIsUnique(s.db.tariffs, s.db.drivers[d], s.db.orders[o], i);
    TripPriceIsTheFare(s.db.tariffs[i].rates, route.distance, route.duration, price);
  }

  lemma BidNeedsCost(s: Desk, o: Id, d: Id, eligible: bool) returns (i: Id, price: int)
    requires KeyedById(s.db.tariffs) && AcceptBid(s, o, d, eligible).Some?
    ensures Costs(s.db, o, d, i, price)
  {
    var row, driver, route := s.db.orders[o], s.db.drivers[d], s.db.orders[o].route.value;
    i :| IsTop(s.db.tariffs, driver, row, i);
    BestIsTop(s.db.tariffs, driver, row, i);
    TopIsUnique(s.db.tariffs, driver, row, i);
    price := AcceptBid(s, o, d, eligible).value.price;
    TripPriceIsTheFare(s.db.tariffs[i].rates, route.distance, route.duration, price);
  }

  /** An acceptance succeeds exactly with an open offer, an order and a driver that are available, a driver who may take it
      by location and car, and a price there is. */
  lemma AcceptSucceedsIff(s: Desk, o: Id, d: Id, eligible: bool)
    requires KeyedById(s.db.tariffs)
    ensures CanAccept(s, o, d, eligible) <==>
              HasOpenOffer(s, o, d) && Available(s.db, o, d) && eligible && exists i, price :: Costs(s.db, o, d, i, price)
  {
    if CanAccept(s, o, d, eligible) {
      var i, price := BidNeedsCost(s, o, d, eligible);
      AvailableIff(s.db, o, d);
    }
    if HasOpenOffer(s, o, d) && Available(s.db, o, d) && eligible {
      if i, price :| Costs(s.db, o, d, i, price) {
        BidCosts(s, o, d, eligible, i, price);
        AvailableIff(s.db, o, d);
        BestIsTop(s.db.tariffs, s.db.drivers[d], s.db.orders[o], i);
      }
    }
  }

  /** Then the order is his at that price, he is busy, the other offers are withdrawn, and unless it is a park's order its
      passenger is asked, with a timer at the end of his time; otherwise nothing changes. */
  lemma AcceptOutcome(s: Desk, o: Id, d: Id, eligible: bool, i: Id, price: int, after: Desk)
    requires KeyedById(s.db.tariffs) && CanAccept(s, o, d, eligible) && Costs(s.db, o, d, i, price)
    requires after == Do(s, AcceptOffer(o, d, eligible))
    ensures var row, driver := s.db.orders[o], s.db.drivers[d];
            var end := s.db.now + s.config.confirmationTtl;
            && after.db == s.db.(
                 orders := s.db.orders[o := OrderOutcomes.TakenRow(row, d, driver, s.db.tariffs[i], price, if row.byPark then None else Some(end))],
                 drivers := s.db.drivers[d := driver.(status := Busy)])
            && after.queue == s.queue && after.config == s.config
            && after.timeouts == (if row.byPark then s.timeouts else s.timeouts[Task(o, -1, s.db.now, [d], None) := end / 1000])
            && Withdrawn(s.keys, after.keys, s.db.now, o)
  {
    var bid := AcceptIsTaken(s, o, d, eligible, i, price);
    var asked := if s.db.orders[o].byPark then None else Some(s.db.now + s.config.confirmationTtl);
    AcceptedTables(s, bid, after, asked);
    AcceptedRest(s, bid, after);
  }

  lemma AcceptIsTaken(s: Desk, o: Id, d: Id, eligible: bool, i: Id, price: int) returns (bid: Bid)
    requires KeyedById(s.db.tariffs) && CanAccept(s, o, d, eligible) && Costs(s.db, o, d, i, price)
    ensures CanAssign(s.db, bid) && Do(s, AcceptOffer(o, d, eligible)) == Taken(s, bid)
    ensures bid == Bid(o, d, Fare(s.db.tariffs[i], s.db.orders[o].route.value), price,
                       s.db.now + s.config.confirmationTtl, !s.db.orders[o].byPark, eligible)
    ensures s.db.tariffs[i].id == i
  {
    BidCosts(s, o, d, eligible, i, price);
    bid := AcceptBid(s, o, d, eligible).value;
  }

  lemma AcceptedRest(s: Desk, bid: Bid, after: Desk)
    requires CanAssign(s.db, bid) && after == Taken(s, bid) && bid.expires == s.db.now + s.config.confirmationTtl
    ensures after.queue == s.queue && after.config == s.config && Withdrawn(s.keys, after.keys, s.db.now, bid.order)
    ensures after.timeouts == if bid.needsConfirmation then s.timeouts[Task(bid.order, -1, s.db.now, [bid.driver], None) := bid.expires / 1000]
                              else s.timeouts
  {
    ClearWithdraws(s.keys, s.db.now, bid.order);
  }

  lemma AcceptedTables(s: Desk, bid: Bid, after: Desk, asked: Option<Instant>)
    requires KeyedById(s.db.tariffs) && CanAssign(s.db, bid) && after == Taken(s, bid)
    requires asked == if bid.needsConfirmation then Some(bid.expires) else None
    ensures after.db == s.db.(
              orders := s.db.orders[bid.order := OrderOutcomes.TakenRow(
                s.db.orders[bid.order], bid.driver, s.db.drivers[bid.driver], s.db.tariffs[bid.fare.tariff.id], bid.price, asked)],
              drivers := s.db.drivers[bid.driver := s.db.drivers[bid.driver].(status := Busy)])
  {
    AssignedIsTaken(s.db, bid);
  }

  /** The price stored with a driver is the documented fare of the tariff stored with it. */
  ghost predicate AtFare(row: Order, d: Id) {
    && row.driver == Some(d) && row.snapshot.Some? && row.route.Some? && row.proposed.Some? && row.proposed.value > 0
    && IsFare(row.snapshot.value.rates, row.route.value.distance, row.route.value.duration, row.proposed.value)
  }

  lemma AcceptedAtFare(s: Desk, o: Id, d: Id, eligible: bool)
    requires KeyedById(s.db.tariffs) && CanAccept(s, o, d, eligible)
    ensures o in Do(s, AcceptOffer(o, d, eligible)).db.orders && AtFare(Do(s, AcceptOffer(o, d, eligible)).db.orders[o], d)
  {
    var i, price := BidNeedsCost(s, o, d, eligible);
    AcceptOutcome(s, o, d, eligible, i, price, Do(s, AcceptOffer(o, d, eligible)));
  }

  lemma RefusedAcceptChangesNothing(s: Desk, o: Id, d: Id, eligible: bool)
    ensures !CanAccept(s, o, d, eligible) ==> Do(s, AcceptOffer(o, d, eligible)) == s
  {
  }

  /** A rejection takes an open offer, and no other, out of the store. */
  lemma RejectOutcome(s: Desk, o: Id, d: Id, p: Id, e: Id)
    ensures var after := Do(s, RejectOffer(o, d));
            && after == s.(keys := after.keys)
            && Find(after.keys, s.db.now, p, e) ==
               if p == o && e == d && HasOpenOffer(s, o, d) then None else Find(s.keys, s.db.now, p, e)
  {
  }

  // ----- the passenger's answer -----

  /** The order's own passenger lets the driver go who waits for his answer, in time or not: a new chain starts without
      him. Any other call changes nothing. */
  lemma DeclineOutcome(s: Desk, o: Id, passenger: Id)
    ensures Do(s, DeclineOrderPrice(o, passenger)) ==
            if o in s.db.orders && Unanswered(s.db.orders[o]) && s.db.orders[o].driver.Some?
               && s.db.orders[o].passenger == passenger then
              var d := s.db.orders[o].driver.value;
              s.(db := Apply(s.db, Free(o, d)), queue := s.queue + [Task(o, 0, s.db.now, [d], None)])
            else s
  {
  }

  /** Stopping dispatch withdraws the order's listed offers and nothing else. */
  lemma StopOutcome(s: Desk, o: Id)
    ensures var after := Do(s, StopDispatch(o)); after == s.(keys := after.keys) && Withdrawn(s.keys, after.keys, s.db.now, o)
  {
    ClearWithdraws(s.keys, s.db.now, o);
  }
}
