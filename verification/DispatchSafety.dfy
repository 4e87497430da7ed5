/** A driver whose reservation was released never meets the order again, whatever lifetimes park orders are offered with;
    offers are what their dates say; a chain of attempts asks nobody twice. */
module DispatchSafety {
  import opened Prelude
  import opened Orders
  import opened Database
  import opened Edges
  import opened Reservations
  import opened OfferStore
  import opened Dispatch
  import DispatchProgress

  // ----- rows -----

  /** Nobody is declined twice, and the driver has not been; the passenger of a park order is never asked for its price,
      so that it releases nobody. */
  predicate RowFits(row: Order) {
    && NoDuplicates(row.declined) && (row.driver.Some? ==> row.driver.value !in row.declined)
    && (row.byPark ==> row.declined == [] && row.confirmation != Some(Pending))
  }

  predicate RowsFit(orders: map<Id, Order>) {
    forall o :: o in orders ==> RowFits(orders[o])
  }

  /** A row with the same driver and declined list that did not become pending. */
  predicate SameClaim(before: Order, after: Order) {
    && after.byPark == before.byPark && after.driver == before.driver && after.declined == before.declined
    && (after.confirmation == Some(Pending) ==> before.confirmation == Some(Pending))
  }

  predicate Unclaimed(row: Order) {
    row.driver.None? && row.declined == [] && row.confirmation.None?
  }

  predicate SameClaims(before: map<Id, Order>, after: map<Id, Order>) {
    && (forall o :: o in before ==> o in after && SameClaim(before[o], after[o]))
    && (forall o :: o in after && o !in before ==> Unclaimed(after[o]))
  }

  lemma RowKeepsClaims(orders: map<Id, Order>, o: Id, row: Order)
    requires if o in orders then SameClaim(orders[o], row) else Unclaimed(row)
    ensures SameClaims(orders, orders[o := row])
  {
  }

  lemma ConfirmKeepsClaims(db: Db, o: Id, passenger: Id)
    ensures SameClaims(db.orders, ConfirmPrice(db, o, passenger).orders)
  {
    if CanConfirm(db, o, passenger) {
      RowKeepsClaims(db.orders, o, ConfirmPrice(db, o, passenger).orders[o]);
    }
  }

  lemma StartSearchKeepsClaims(db: Db, o: Id)
    ensures SameClaims(db.orders, StartSearch(db, o).orders)
  {
    if CanStartSearch(db, o) {
      RowKeepsClaims(db.orders, o, StartSearch(db, o).orders[o]);
    }
  }

  lemma GiveUpKeepsClaims(db: Db, o: Id)
    ensures SameClaims(db.orders, GiveUp(db, o).orders)
  {
    if CanGiveUp(db, o) {
      RowKeepsClaims(db.orders, o, GiveUp(db, o).orders[o]);
    }
  }

  lemma EdgeKeepsClaim(before: Order, after: Order, a: Action, o: Id, now: Instant)
    requires Edge(before, after, a, o, now) && !a.Reserve? && !a.Free?
    ensures SameClaim(before, after)
  {
  }

  lemma ActionKeepsClaims(db: Db, a: Action)
    requires !a.Reserve? && !a.Free?
    ensures SameClaims(db.orders, Apply(db, a).orders)
  {
    var after := Apply(db, a).orders;
    forall o | o in db.orders
      ensures o in after && SameClaim(db.orders[o], after[o])
    {
      ActionEdge(db, a, o);
      EdgeKeepsClaim(db.orders[o], after[o], a, o, db.now);
    }
    forall o | o in after && o !in db.orders
      ensures Unclaimed(after[o])
    {
      ActionAdds(db, a, o);
    }
  }

  // ----- tasks and offers -----

  /** An order that asks its passenger for the price is offered with the service's own lifetime; the orders of parks,
      which do not, with any. */
  predicate TaskFits(orders: map<Id, Order>, service: NormalConfig, task: Task) {
    task.order in orders && (orders[task.order].byPark || ConfigFor(service, task).offerTtl == service.offerTtl)
  }

  predicate TasksFit(s: Desk) {
    && (forall i :: 0 <= i < |s.queue| ==> TaskFits(s.db.orders, s.config, s.queue[i]))
    && (forall t :: t in s.timeouts ==> TaskFits(s.db.orders, s.config, t))
  }

  /** An order that may release its driver is listed, and offered only while it has none, and never to one who was
      released from it. */
  ghost predicate OrderFits(row: Order, o: Id, keys: Keys, now: Instant, ttl: Lifetime) {
    !row.byPark ==>
      && OrderOk(keys, now, o, ttl)
      && forall d :: Find(keys, now, o, d).Some? ==> row.driver.None? && d !in row.declined
  }

  ghost predicate OffersFit(orders: map<Id, Order>, keys: Keys, now: Instant, ttl: Lifetime) {
    && (forall k :: k in keys.offers ==> k.order in orders)
    && (forall o :: o in orders ==> OrderFits(orders[o], o, keys, now, ttl))
  }

  ghost predicate DeskOk(s: Desk) {
    && Consistent(s.db) && RowsFit(s.db.orders) && TasksFit(s)
    && OffersFit(s.db.orders, s.keys, s.db.now, s.config.offerTtl)
  }

  // ----- the tables move on -----

  lemma LaterOrderFits(row: Order, after: Order, o: Id, keys: Keys, now: Instant, later: Instant, ttl: Lifetime)
    requires OrderFits(row, o, keys, now, ttl) && SameClaim(row, after) && now <= later
    ensures OrderFits(after, o, keys, later, ttl)
  {
    if !row.byPark {
      ListingLasts(keys, now, later, o, 0);
      forall d | Find(keys, later, o, d).Some?
        ensures after.driver.None? && d !in after.declined
      {
        assert Find(keys, now, o, d).Some?;
      }
    }
  }

  lemma ClaimsKeepOffers(before: map<Id, Order>, after: map<Id, Order>, keys: Keys, now: Instant, later: Instant, ttl: Lifetime)
    requires OffersFit(before, keys, now, ttl) && SameClaims(before, after) && now <= later
    ensures OffersFit(after, keys, later, ttl)
  {
    forall o | o in after
      ensures OrderFits(after[o], o, keys, later, ttl)
    {
      if o in before {
        LaterOrderFits(before[o], after[o], o, keys, now, later, ttl);
      }
    }
  }

  /** Whatever keeps the tables consistent, the claims and the clock's direction keeps the whole desk. */
  lemma ClaimsKeepDesk(s: Desk, after: Db)
    requires DeskOk(s) && Consistent(after) && after.now >= s.db.now && SameClaims(s.db.orders, after.orders)
    ensures DeskOk(s.(db := after))
  {
    ClaimsKeepOffers(s.db.orders, after.orders, s.keys, s.db.now, after.now, s.config.offerTtl);
    ClaimsKeepRows(s.db.orders, after.orders);
    ClaimsKeepTasks(s, after);
  }

  lemma ClaimsKeepRows(before: map<Id, Order>, after: map<Id, Order>)
    requires RowsFit(before) && SameClaims(before, after)
    ensures RowsFit(after)
  {
  }

  lemma ClaimsKeepTasks(s: Desk, after: Db)
    requires TasksFit(s) && SameClaims(s.db.orders, after.orders)
    ensures TasksFit(s.(db := after))
  {
  }

  lemma ActionKeepsDesk(s: Desk, a: Action)
    requires DeskOk(s) && !a.Reserve? && !a.Free?
    ensures DeskOk(s.(db := Apply(s.db, a)))
  {
    ApplyKeeps(s.db, a);
    ActionKeepsClaims(s.db, a);
    ClockAdvances(s.db, a);
    ClaimsKeepDesk(s, Apply(s.db, a));
  }

  lemma GiveUpKeeps(s: Desk, o: Id)
    requires DeskOk(s)
    ensures DeskOk(s.(db := GiveUp(s.db, o)))
  {
    Reservations.SearchKeeps(s.db, o);
    GiveUpKeepsClaims(s.db, o);
    ClaimsKeepDesk(s, GiveUp(s.db, o));
  }

  lemma StartSearchKeeps(s: Desk, o: Id)
    requires DeskOk(s)
    ensures DeskOk(s.(db := StartSearch(s.db, o)))
  {
    Reservations.SearchKeeps(s.db, o);
    StartSearchKeepsClaims(s.db, o);
    ClaimsKeepDesk(s, StartSearch(s.db, o));
  }

  lemma ConfirmKeepsDesk(s: Desk, o: Id, passenger: Id)
    requires DeskOk(s)
    ensures DeskOk(s.(db := ConfirmPrice(s.db, o, passenger)))
  {
    ConfirmKeeps(s.db, o, passenger);
    ConfirmKeepsClaims(s.db, o, passenger);
    ClaimsKeepDesk(s, ConfirmPrice(s.db, o, passenger));
  }

  // ----- tasks come and go -----

  lemma ScheduleKeeps(s: Desk, task: Task, after: nat)
    requires DeskOk(s) && TaskFits(s.db.orders, s.config, task)
    ensures DeskOk(Schedule(s, task, after))
  {
  }

  lemma PublishKeeps(s: Desk, task: Task)
    requires DeskOk(s) && TaskFits(s.db.orders, s.config, task)
    ensures DeskOk(Publish(s, task))
  {
  }

  lemma DroppingKeeps(s: Desk, task: Task)
    requires DeskOk(s)
    ensures DeskOk(s.(timeouts := s.timeouts - {task}))
  {
  }

  lemma ConsumingKeeps(s: Desk)
    requires DeskOk(s) && s.queue != []
    ensures DeskOk(s.(queue := s.queue[1..])) && TaskFits(s.db.orders, s.config, s.queue[0])
  {
  }

  lemma TimedFits(s: Desk, task: Task)
    requires DeskOk(s) && task in s.timeouts
    ensures TaskFits(s.db.orders, s.config, task)
  {
  }

  lemma SearchingIsFree(db: Db, o: Id)
    requires Consistent(db) && o in db.orders && db.orders[o].status == Searching
    ensures db.orders[o].driver.None?
  {
    assert RowOk(db.orders[o]);
  }

  // ----- offering -----

  /** Offering touches only the order offered, and keeps it listed when its offers have one lifetime. */
  lemma OfferToKeeps(keys: Keys, now: Instant, o: Id, attempt: int, radius: int, d: Id, c: NormalConfig, p: Id, ttl: Lifetime)
    requires OrderOk(keys, now, p, ttl) && (p == o ==> c.offerTtl == ttl)
    ensures OrderOk(OfferTo(keys, now, o, attempt, radius, d, c), now, p, ttl)
  {
    var offer := Offer(o, d, attempt, radius, now + c.offerTtl, now, c.lockTtl / 1_000_000);
    StoreApplyKeepsOrder(Clocked(now, keys), SaveStep(offer, c.offerTtl), p, ttl);
  }

  lemma {:induction false} OfferAllKeeps(keys: Keys, now: Instant, o: Id, attempt: int, radius: int, drivers: seq<Id>,
                                         c: NormalConfig, p: Id, ttl: Lifetime)
    requires OrderOk(keys, now, p, ttl) && (p == o ==> c.offerTtl == ttl)
    ensures OrderOk(OfferAll(keys, now, o, attempt, radius, drivers, c), now, p, ttl)
  {
    if drivers != [] {
      var front, d := drivers[..|drivers| - 1], drivers[|drivers| - 1];
      OfferAllKeeps(keys, now, o, attempt, radius, front, c, p, ttl);
      OfferToKeeps(OfferAll(keys, now, o, attempt, radius, front, c), now, o, attempt, radius, d, c, p, ttl);
    }
  }

  /** Whoever has an offer now had it before or is one of those offered to. */
  lemma {:induction false} OfferedOnly(keys: Keys, now: Instant, o: Id, attempt: int, radius: int, drivers: seq<Id>,
                                       c: NormalConfig, k: OfferKey)
    ensures var after := OfferAll(keys, now, o, attempt, radius, drivers, c);
            && (k in after.offers ==> k in keys.offers || (k.order == o && k.driver in drivers))
            && (Find(after, now, k.order, k.driver).Some? ==>
                  Find(keys, now, k.order, k.driver).Some? || (k.order == o && k.driver in drivers))
  {
    if drivers != [] {
      var front, d := drivers[..|drivers| - 1], drivers[|drivers| - 1];
      OfferedOnly(keys, now, o, attempt, radius, front, c, k);
      assert drivers == front + [d];
    }
  }

  lemma NearestIsFit(db: Db, row: Order, nearby: seq<Id>, exclude: seq<Id>, limit: nat)
    ensures var found := Nearest(db, row, nearby, exclude, limit);
            |found| <= limit && forall d :: d in found ==> d in nearby && d !in exclude && Searchable(db, row, d)
  {
    CandidatesAreFit(db, row, nearby, exclude);
  }

  /** The order offered is free, and none of those offered to declined it. */
  lemma OfferingFits(orders: map<Id, Order>, keys: Keys, now: Instant, ttl: Lifetime,
                     o: Id, attempt: int, radius: int, drivers: seq<Id>, c: NormalConfig)
    requires OffersFit(orders, keys, now, ttl) && o in orders && (orders[o].byPark || c.offerTtl == ttl)
    requires orders[o].driver.None? && forall d :: d in drivers ==> d !in orders[o].declined
    ensures OffersFit(orders, OfferAll(keys, now, o, attempt, radius, drivers, c), now, ttl)
  {
    var after := OfferAll(keys, now, o, attempt, radius, drivers, c);
    forall k | k in after.offers
      ensures k.order in orders
    {
      OfferedOnly(keys, now, o, attempt, radius, drivers, c, k);
    }
    forall p | p in orders
      ensures OrderFits(orders[p], p, after, now, ttl)
    {
      assert OrderFits(orders[p], p, keys, now, ttl);
      if !orders[p].byPark {
        OfferAllKeeps(keys, now, o, attempt, radius, drivers, c, p, ttl);
        forall d | Find(after, now, p, d).Some?
          ensures orders[p].driver.None? && d !in orders[p].declined
        {
          OfferedOnly(keys, now, o, attempt, radius, drivers, c, OfferKey(p, d));
        }
      }
    }
  }

  lemma SearchKeeps(s: Desk, task: Task, nearby: seq<Id>)
    requires DeskOk(s) && TaskFits(s.db.orders, s.config, task) && s.db.orders[task.order].status == Searching
    ensures DeskOk(Search(s, task, nearby))
  {
    if Exhausted(s, task, nearby) {
      GiveUpKeeps(s, task.order);
    } else {
      var row, c := s.db.orders[task.order], ConfigFor(s.config, task);
      var radius := RadiusFor(c, task.attempt).value;
      var found := Found(s, task, nearby);
      SearchingIsFree(s.db, task.order);
      NearestIsFit(s.db, row, nearby, Listed(s, task).exclude, c.maxDrivers);
      DeduplicatedIsExact(task.exclude + row.declined);
      OfferingFits(s.db.orders, s.keys, s.db.now, s.config.offerTtl, task.order, task.attempt, radius, found, c);
      OfferedKeeps(s, task, radius, found, c);
    }
  }

  lemma OfferedKeeps(s: Desk, task: Task, radius: int, found: seq<Id>, c: NormalConfig)
    requires DeskOk(s) && TaskFits(s.db.orders, s.config, task) && c == ConfigFor(s.config, task)
    requires OffersFit(s.db.orders, OfferAll(s.keys, s.db.now, task.order, task.attempt, radius, found, c), s.db.now, s.config.offerTtl)
    ensures var keys := OfferAll(s.keys, s.db.now, task.order, task.attempt, radius, found, c);
            DeskOk(Schedule(s.(keys := keys), Listed(s, task), c.offerTtl))
  {
    var keys := OfferAll(s.keys, s.db.now, task.order, task.attempt, radius, found, c);
    assert DeskOk(s.(keys := keys));
    ScheduleKeeps(s.(keys := keys), Listed(s, task), c.offerTtl);
  }

  lemma ProcessOneKeeps(s: Desk, task: Task, nearby: seq<Id>)
    requires DeskOk(s) && TaskFits(s.db.orders, s.config, task)
    ensures DeskOk(ProcessOne(s, task, nearby))
  {
    if s.db.orders[task.order].status == Searching {
      SearchKeeps(s, task, nearby);
    } else if CanStartSearch(s.db, task.order) {
      StartSearchKeeps(s, task.order);
      SearchKeeps(s.(db := StartSearch(s.db, task.order)), task, nearby);
    }
  }

  lemma ProcessKeeps(s: Desk, nearby: seq<Id>)
    requires DeskOk(s)
    ensures DeskOk(Process(s, nearby))
  {
    if s.queue != [] {
      ConsumingKeeps(s);
      ProcessOneKeeps(s.(queue := s.queue[1..]), s.queue[0], nearby);
    }
  }

  // ----- clearing and releasing -----

  lemma RowPutFits(orders: map<Id, Order>, o: Id, row: Order)
    requires RowsFit(orders) && RowFits(row)
    ensures RowsFit(orders[o := row])
  {
  }

  lemma TasksStillFit(s: Desk, after: Db, o: Id, row: Order)
    requires TasksFit(s) && o in s.db.orders && row.byPark == s.db.orders[o].byPark && after.orders == s.db.orders[o := row]
    ensures TasksFit(s.(db := after))
  {
  }

  /** One row of a desk in order changes, and its offers. */
  lemma RowPutKeeps(s: Desk, after: Db, o: Id, row: Order, keys: Keys)
    requires DeskOk(s) && o in s.db.orders && RowFits(row) && row.byPark == s.db.orders[o].byPark
    requires Consistent(after) && after.now == s.db.now && after.orders == s.db.orders[o := row]
    requires OffersFit(s.db.orders[o := row], keys, s.db.now, s.config.offerTtl)
    ensures DeskOk(s.(db := after, keys := keys))
  {
    RowPutFits(s.db.orders, o, row);
    TasksStillFit(s, after, o, row);
  }

  lemma ClearFits(orders: map<Id, Order>, keys: Keys, now: Instant, ttl: Lifetime, o: Id)
    requires OffersFit(orders, keys, now, ttl)
    ensures OffersFit(orders, Clear(keys, now, o), now, ttl)
    ensures o in orders && !orders[o].byPark ==> forall d :: Find(Clear(keys, now, o), now, o, d).None?
  {
    var after := Clear(keys, now, o);
    forall p | p in orders
      ensures OrderFits(orders[p], p, after, now, ttl)
    {
      assert OrderFits(orders[p], p, keys, now, ttl);
      if !orders[p].byPark {
        StoreApplyKeepsOrder(Clocked(now, keys), ClearStep(o), p, ttl);
        forall d | Find(after, now, p, d).Some?
          ensures orders[p].driver.None? && d !in orders[p].declined
        {
          ClearTakesTheListed(keys, now, o, p, d);
        }
      }
    }
    if o in orders && !orders[o].byPark {
      assert OrderFits(orders[o], o, keys, now, ttl);
      forall d
        ensures Find(after, now, o, d).None?
      {
        ClearTakesTheListed(keys, now, o, o, d);
      }
    }
  }

  lemma ClearKeeps(s: Desk, o: Id)
    requires DeskOk(s)
    ensures DeskOk(s.(keys := Clear(s.keys, s.db.now, o)))
  {
    ClearFits(s.db.orders, s.keys, s.db.now, s.config.offerTtl, o);
  }

  /** No driver has an offer of an order that has one; so nobody is left over when it is released. */
  lemma ReleaseFits(orders: map<Id, Order>, keys: Keys, now: Instant, ttl: Lifetime, o: Id, d: Id)
    requires OffersFit(orders, keys, now, ttl) && o in orders && orders[o].driver == Some(d)
    ensures OffersFit(orders[o := ReleasedRow(orders[o], d)], keys, now, ttl)
  {
    var after := orders[o := ReleasedRow(orders[o], d)];
    forall p | p in after
      ensures OrderFits(after[p], p, keys, now, ttl)
    {
      assert OrderFits(orders[p], p, keys, now, ttl);
    }
  }

  lemma ReleasedRowFits(row: Order, d: Id)
    requires RowFits(row) && row.driver == Some(d) && row.confirmation == Some(Pending)
    ensures RowFits(ReleasedRow(row, d))
  {
  }

  lemma ReleaseKeepsDesk(s: Desk, o: Id, d: Id)
    requires DeskOk(s) && CanRelease(s.db, o, d)
    ensures DeskOk(s.(db := Release(s.db, o, d))) && !s.db.orders[o].byPark
  {
    ReleaseKeeps(s.db, o, d);
    assert RowFits(s.db.orders[o]);
    ReleasedRowFits(s.db.orders[o], d);
    ReleaseFits(s.db.orders, s.keys, s.db.now, s.config.offerTtl, o, d);
    RowPutKeeps(s, Release(s.db, o, d), o, ReleasedRow(s.db.orders[o], d), s.keys);
  }

  lemma ReleasePriceKeeps(s: Desk, o: Id, d: Id)
    requires DeskOk(s)
    ensures DeskOk(ReleasePrice(s, o, d))
  {
    if CanRelease(s.db, o, d) {
      ReleaseKeepsDesk(s, o, d);
      PublishKeeps(s.(db := Release(s.db, o, d)), Task(o, 0, s.db.now, [d], None));
    }
  }

  lemma ExpirePriceKeeps(s: Desk, o: Id)
    requires DeskOk(s)
    ensures DeskOk(ExpirePrice(s, o))
  {
    if o in s.db.orders && Lapsed(s.db.orders[o], s.db.now) {
      ReleasePriceKeeps(s, o, s.db.orders[o].driver.value);
    }
  }

  lemma DeclineKeeps(s: Desk, o: Id, passenger: Id)
    requires DeskOk(s)
    ensures DeskOk(Decline(s, o, passenger))
  {
    if CanDecline(s, o, passenger) {
      ReleasePriceKeeps(s, o, s.db.orders[o].driver.value);
    }
  }

  lemma RetryKeeps(s: Desk, task: Task, offered: seq<Id>)
    requires DeskOk(s) && TaskFits(s.db.orders, s.config, task)
    ensures DeskOk(Retry(s, task, offered))
  {
    var next := Task(task.order, task.attempt + 1, s.db.now, Deduplicated(task.exclude + offered), task.config);
    if RadiusFor(ConfigFor(s.config, task), next.attempt).None? {
      GiveUpKeeps(s, task.order);
    } else {
      PublishKeeps(s, next);
    }
  }

  lemma TimeoutKeeps(s: Desk, task: Task, offered: seq<Id>)
    requires DeskOk(s)
    ensures DeskOk(Timeout(s, task, offered))
  {
    if IsDue(s, task) {
      TimedFits(s, task);
      if task.attempt == -1 {
        ExpirePriceKeeps(s, task.order);
        DroppingKeeps(ExpirePrice(s, task.order), task);
      } else {
        DroppingKeeps(s, task);
        ClearKeeps(s, task.order);
        var cleared := s.(keys := Clear(s.keys, s.db.now, task.order));
        DroppingKeeps(cleared, task);
        RetryKeeps(cleared.(timeouts := s.timeouts - {task}), task, offered);
      }
    }
  }

  // ----- acceptance -----

  /** The driver takes the order: of an order that can lose him again no offer is left. */
  lemma AssignFits(orders: map<Id, Order>, keys: Keys, now: Instant, ttl: Lifetime, o: Id, row: Order)
    requires OffersFit(orders, keys, now, ttl) && o in orders && row.byPark == orders[o].byPark
    ensures OffersFit(orders[o := row], Clear(keys, now, o), now, ttl)
  {
    ClearFits(orders, keys, now, ttl, o);
    var after := orders[o := row];
    forall p | p in after
      ensures OrderFits(after[p], p, Clear(keys, now, o), now, ttl)
    {
      assert OrderFits(orders[p], p, Clear(keys, now, o), now, ttl);
    }
  }

  lemma AssignedRowFits(db: Db, bid: Bid)
    requires CanAssign(db, bid) && RowFits(db.orders[bid.order])
    requires db.orders[bid.order].byPark ==> !bid.needsConfirmation
    requires bid.driver !in db.orders[bid.order].declined
    ensures RowFits(AssignedRow(db, bid))
  {
  }

  lemma AssignKeepsDesk(s: Desk, bid: Bid)
    requires DeskOk(s) && CanAssign(s.db, bid) && bid.needsConfirmation == !s.db.orders[bid.order].byPark
    requires Find(s.keys, s.db.now, bid.order, bid.driver).Some?
    ensures DeskOk(s.(db := Assign(s.db, bid), keys := Clear(s.keys, s.db.now, bid.order)))
  {
    AssignKeeps(s.db, bid);
    OfferedDriverIsNew(s, bid.order, bid.driver);
    AssignedRowFits(s.db, bid);
    AssignFits(s.db.orders, s.keys, s.db.now, s.config.offerTtl, bid.order, AssignedRow(s.db, bid));
    RowPutKeeps(s, Assign(s.db, bid), bid.order, AssignedRow(s.db, bid), Clear(s.keys, s.db.now, bid.order));
  }

  lemma OfferedDriverIsNew(s: Desk, o: Id, d: Id)
    requires DeskOk(s) && o in s.db.orders && Find(s.keys, s.db.now, o, d).Some?
    ensures RowFits(s.db.orders[o]) && d !in s.db.orders[o].declined
  {
    assert OrderFits(s.db.orders[o], o, s.keys, s.db.now, s.config.offerTtl);
  }

  lemma TakenKeeps(s: Desk, bid: Bid)
    requires DeskOk(s) && bid.order in s.db.orders && bid.needsConfirmation == !s.db.orders[bid.order].byPark
    requires Find(s.keys, s.db.now, bid.order, bid.driver).Some?
    ensures DeskOk(Taken(s, bid))
  {
    if CanAssign(s.db, bid) {
      var confirmation := Task(bid.order, -1, s.db.now, [bid.driver], None);
      var asked := if bid.needsConfirmation then Schedule(s, confirmation, s.config.confirmationTtl) else s;
      ScheduleKeeps(s, confirmation, s.config.confirmationTtl);
      AssignKeepsDesk(asked, bid);
      ActionKeepsDesk(asked.(db := Assign(s.db, bid), keys := Clear(s.keys, s.db.now, bid.order)), MarkBusy(bid.driver));
    }
  }

  lemma AcceptKeeps(s: Desk, o: Id, d: Id, eligible: bool)
    requires DeskOk(s)
    ensures DeskOk(Accept(s, o, d, eligible))
  {
    var bid := AcceptBid(s, o, d, eligible);
    if bid.Some? {
      TakenKeeps(s, bid.value);
    }
  }

  lemma RejectKeeps(s: Desk, o: Id, d: Id)
    requires DeskOk(s)
    ensures DeskOk(Reject(s, o, d))
  {
    var after := Remove(s.keys, s.db.now, o, d);
    forall p | p in s.db.orders
      ensures OrderFits(s.db.orders[p], p, after, s.db.now, s.config.offerTtl)
    {
      assert OrderFits(s.db.orders[p], p, s.keys, s.db.now, s.config.offerTtl);
      if !s.db.orders[p].byPark {
        StoreApplyKeepsOrder(Clocked(s.db.now, s.keys), RemoveStep(o, d), p, s.config.offerTtl);
        forall e | Find(after, s.db.now, p, e).Some?
          ensures s.db.orders[p].driver.None? && e !in s.db.orders[p].declined
        {
          RemoveTakesOne(s.keys, s.db.now, o, d, p, e);
        }
      }
    }
    assert OffersFit(s.db.orders, after, s.db.now, s.config.offerTtl);
  }

  // ----- every step -----

  /** Only the orders of parks are enqueued with a lifetime of their own. */
  predicate FitsCallers(s: Desk, step: Step) {
    step.Enqueue? && step.order in s.db.orders && !s.db.orders[step.order].byPark && step.taskConfig.Some? ==>
      Normalize(step.taskConfig.value).offerTtl == s.config.offerTtl
  }

  lemma EnqueueKeeps(s: Desk, o: Id, config: Option<Config>)
    requires DeskOk(s) && FitsCallers(s, Enqueue(o, config))
    ensures DeskOk(Do(s, Enqueue(o, config)))
  {
    if CanStartSearch(s.db, o) {
      StartSearchKeeps(s, o);
      PublishKeeps(s.(db := StartSearch(s.db, o)), Task(o, 0, s.db.now, [], config));
    }
  }

  /** Every service call and every outside transaction keeps the desk in order. */
  lemma DoKeeps(s: Desk, step: Step)
    requires DeskOk(s) && FitsCallers(s, step)
    ensures DeskOk(Do(s, step))
  {
    match step {
      case Enqueue(o, config) => EnqueueKeeps(s, o, config);
      case ProcessTask(nearby) => ProcessKeeps(s, nearby);
      case HandleTimeout(task, offered) => TimeoutKeeps(s, task, offered);
      case AcceptOffer(o, d, eligible) => AcceptKeeps(s, o, d, eligible);
      case RejectOffer(o, d) => RejectKeeps(s, o, d);
      case ConfirmOrderPrice(o, passenger) => ConfirmKeepsDesk(s, o, passenger);
      case DeclineOrderPrice(o, passenger) => DeclineKeeps(s, o, passenger);
      case ExpireOrderPrice(o) => ExpirePriceKeeps(s, o);
      case StopDispatch(o) => ClearKeeps(s, o);
      case Outside(a) =>
        if Foreign(a) {
          ActionKeepsDesk(s, a);
        }
    }
  }

  ghost predicate AllFitCallers(s: Desk, steps: seq<Step>)
    decreases |steps|
  {
    steps == [] || (FitsCallers(s, steps[0]) && AllFitCallers(Do(s, steps[0]), steps[1..]))
  }

  lemma {:induction false} RunKeepsDesk(s: Desk, steps: seq<Step>)
    requires DeskOk(s) && AllFitCallers(s, steps)
    ensures DeskOk(DoAll(s, steps))
    decreases |steps|
  {
    if steps != [] {
      DoKeeps(s, steps[0]);
      RunKeepsDesk(Do(s, steps[0]), steps[1..]);
    }
  }

  /** Orders that ask for the price are enqueued with one of these configurations; park orders with any. */
  predicate Passes(s: Desk, step: Step, allowed: set<Option<Config>>) {
    step.Enqueue? && step.order in s.db.orders && !s.db.orders[step.order].byPark ==> step.taskConfig in allowed
  }

  ghost predicate AllPass(s: Desk, steps: seq<Step>, allowed: set<Option<Config>>)
    decreases |steps|
  {
    steps == [] || (Passes(s, steps[0], allowed) && AllPass(Do(s, steps[0]), steps[1..], allowed))
  }

  /** When all of these share the service's lifetime, the callers fit. */
  lemma {:induction false} OneLifetimeFits(s: Desk, steps: seq<Step>, allowed: set<Option<Config>>)
    requires AllPass(s, steps, allowed)
    requires forall c :: c in allowed && c.Some? ==> Normalize(c.value).offerTtl == s.config.offerTtl
    ensures AllFitCallers(s, steps)
    decreases |steps|
  {
    if steps != [] {
      OneLifetimeFits(Do(s, steps[0]), steps[1..], allowed);
    }
  }

  lemma {:induction false} PassOneMore(s: Desk, steps: seq<Step>, last: Step, allowed: set<Option<Config>>)
    requires AllPass(s, steps, allowed) && Passes(DoAll(s, steps), last, allowed)
    ensures AllPass(s, steps + [last], allowed)
    decreases |steps|
  {
    var longer := steps + [last];
    if steps == [] {
      assert longer == [last] && longer[1..] == [];
    } else {
      assert longer[0] == steps[0] && longer[1..] == steps[1..] + [last];
      PassOneMore(Do(s, steps[0]), steps[1..], last, allowed);
    }
  }

  function Opening(config: NormalConfig): Desk {
    Desk(EMPTY, NO_KEYS, [], map[], config)
  }

  lemma OpeningIsOk(config: NormalConfig)
    ensures DeskOk(Opening(config))
  {
  }

  // ----- declined drivers -----

  predicate KeepsDeclined(before: map<Id, Order>, after: map<Id, Order>) {
    forall o :: o in before ==> o in after && before[o].declined <= after[o].declined
  }

  lemma EdgeKeepsDeclined(before: Order, after: Order, a: Action, o: Id, now: Instant)
    requires Edge(before, after, a, o, now)
    ensures before.declined <= after.declined
  {
  }

  lemma ActionKeepsDeclined(db: Db, a: Action)
    ensures KeepsDeclined(db.orders, Apply(db, a).orders)
  {
    forall o | o in db.orders
      ensures o in Apply(db, a).orders && db.orders[o].declined <= Apply(db, a).orders[o].declined
    {
      ActionEdge(db, a, o);
      EdgeKeepsDeclined(db.orders[o], Apply(db, a).orders[o], a, o, db.now);
    }
  }

  lemma DeclinedTwice(a: map<Id, Order>, b: map<Id, Order>, c: map<Id, Order>)
    requires KeepsDeclined(a, b) && KeepsDeclined(b, c)
    ensures KeepsDeclined(a, c)
  {
  }

  lemma StepKeepsDeclined(s: Desk, step: Step)
    ensures KeepsDeclined(s.db.orders, Do(s, step).db.orders)
  {
    var a, b := DispatchProgress.StepIsTransactions(s, step);
    ActionKeepsDeclined(s.db, a);
    ActionKeepsDeclined(Apply(s.db, a), b);
    DeclinedTwice(s.db.orders, Apply(s.db, a).orders, Do(s, step).db.orders);
  }

  lemma {:induction false} DeclinedOnlyGrows(s: Desk, steps: seq<Step>, o: Id)
    requires o in s.db.orders
    ensures o in DoAll(s, steps).db.orders && s.db.orders[o].declined <= DoAll(s, steps).db.orders[o].declined
    decreases |steps|
  {
    if steps != [] {
      StepKeepsDeclined(s, steps[0]);
      DeclinedOnlyGrows(Do(s, steps[0]), steps[1..], o);
    }
  }

  lemma DeclinedStayAway(s: Desk, o: Id, d: Id)
    requires DeskOk(s) && o in s.db.orders && d in s.db.orders[o].declined
    ensures s.db.orders[o].driver != Some(d) && Find(s.keys, s.db.now, o, d).None? && NoDuplicates(s.db.orders[o].declined)
  {
    assert RowFits(s.db.orders[o]);
    assert OrderFits(s.db.orders[o], o, s.keys, s.db.now, s.config.offerTtl);
  }

  /** A driver released from an order once never has an offer for it or drives it again, whatever chains of tasks are
      still alive and whatever lifetimes parks configure; and no driver is released from it twice. */
  lemma ReleasedDriverNeverReturns(config: NormalConfig, steps: seq<Step>, more: seq<Step>, o: Id, d: Id)
    requires AllFitCallers(Opening(config), steps) && AllFitCallers(DoAll(Opening(config), steps), more)
    requires var s := DoAll(Opening(config), steps); o in s.db.orders && d in s.db.orders[o].declined
    ensures var s := DoAll(DoAll(Opening(config), steps), more);
            && o in s.db.orders
            && s.db.orders[o].driver != Some(d)
            && Find(s.keys, s.db.now, o, d).None?
            && NoDuplicates(s.db.orders[o].declined)
  {
    var middle := DoAll(Opening(config), steps);
    OpeningIsOk(config);
    RunKeepsDesk(Opening(config), steps);
    RunKeepsDesk(middle, more);
    DeclinedOnlyGrows(middle, more, o);
    DeclinedStayAway(DoAll(middle, more), o, d);
  }

  // ----- what an offer says of itself -----

  /** The date in an offer is the date at which Redis drops it. */
  predicate Stamped(keys: Keys) {
    forall k :: k in keys.offers ==> keys.offers[k].until == Some(keys.offers[k].value.expiresAt)
  }

  lemma {:induction false} OfferAllStamps(keys: Keys, now: Instant, o: Id, attempt: int, radius: int, drivers: seq<Id>, c: NormalConfig)
    requires Stamped(keys)
    ensures Stamped(OfferAll(keys, now, o, attempt, radius, drivers, c))
  {
    if drivers != [] {
      OfferAllStamps(keys, now, o, attempt, radius, drivers[..|drivers| - 1], c);
    }
  }

  lemma SearchStamps(s: Desk, task: Task, nearby: seq<Id>)
    requires Stamped(s.keys) && task.order in s.db.orders
    ensures Stamped(Search(s, task, nearby).keys)
  {
    var c := ConfigFor(s.config, task);
    if !Exhausted(s, task, nearby) {
      OfferAllStamps(s.keys, s.db.now, task.order, task.attempt, RadiusFor(c, task.attempt).value, Found(s, task, nearby), c);
    }
  }

  lemma ProcessStamps(s: Desk, nearby: seq<Id>)
    requires Stamped(s.keys)
    ensures Stamped(Process(s, nearby).keys)
  {
    if s.queue != [] && s.queue[0].order in s.db.orders {
      var task, rest := s.queue[0], s.(queue := s.queue[1..]);
      SearchStamps(rest, task, nearby);
      if CanStartSearch(s.db, task.order) {
        SearchStamps(rest.(db := StartSearch(s.db, task.order)), task, nearby);
      }
    }
  }

  lemma TimeoutStamps(s: Desk, task: Task, offered: seq<Id>)
    requires Stamped(s.keys)
    ensures Stamped(Timeout(s, task, offered).keys)
  {
  }

  lemma AcceptStamps(s: Desk, o: Id, d: Id, eligible: bool)
    requires Stamped(s.keys)
    ensures Stamped(Accept(s, o, d, eligible).keys)
  {
  }

  lemma StepStamps(s: Desk, step: Step)
    requires Stamped(s.keys)
    ensures Stamped(Do(s, step).keys)
  {
    match step {
      case ProcessTask(nearby) => ProcessStamps(s, nearby);
      case HandleTimeout(task, offered) => TimeoutStamps(s, task, offered);
      case AcceptOffer(o, d, eligible) => AcceptStamps(s, o, d, eligible);
      case _ =>
    }
  }

  lemma {:induction false} RunStamps(s: Desk, steps: seq<Step>)
    requires Stamped(s.keys)
    ensures Stamped(DoAll(s, steps).keys)
    decreases |steps|
  {
    if steps != [] {
      StepStamps(s, steps[0]);
      RunStamps(Do(s, steps[0]), steps[1..]);
    }
  }

  /** In every reachable state an offer that Redis still has is open by its own date too. */
  lemma LiveOffersAreOpen(config: NormalConfig, steps: seq<Step>, o: Id, d: Id)
    ensures var s := DoAll(Opening(config), steps);
            Find(s.keys, s.db.now, o, d).Some? <==> OfferOpen(s, o, d)
  {
    RunStamps(Opening(config), steps);
  }

  // ----- whom a chain of attempts has asked -----

  /** The next attempt of a chain finds nobody whom the chain has excluded or asked before, whatever has happened since;
      and its own task, once processed, excludes them still, and those who declined. */
  lemma NobodyIsAskedTwice(s: Desk, task: Task, offered: seq<Id>, later: Desk, nearby: seq<Id>)
    requires task.order in s.db.orders && task.order in later.db.orders
    requires |Retry(s, task, offered).queue| > |s.queue|
    ensures var next := Retry(s, task, offered).queue[|s.queue|];
            && next.order == task.order && next.attempt == task.attempt + 1
            && (forall d :: d in Found(later, next, nearby) ==>
                  d !in offered && d !in task.exclude && d !in later.db.orders[task.order].declined)
            && (forall d :: d in task.exclude || d in offered || d in later.db.orders[task.order].declined ==>
                  d in Listed(later, next).exclude)
  {
    var next := Retry(s, task, offered).queue[|s.queue|];
    var row := later.db.orders[task.order];
    DeduplicatedIsExact(task.exclude + offered);
    DeduplicatedIsExact(next.exclude + row.declined);
    NearestIsFit(later.db, row, nearby, Listed(later, next).exclude, ConfigFor(later.config, next).maxDrivers);
  }
}
