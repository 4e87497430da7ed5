/** A small city in which runs of the dispatch machine can be built step by step, from the opening of the service to a
    first offer: every state here is reached, none is assumed. */
module City {
  import opened Prelude
  import opened Orders
  import opened TripPricing
  import opened Database
  import opened OfferStore
  import opened Dispatch
  import opened DispatchSafety

  // ----- a city with two drivers, one tariff, and an order of each kind -----

  const ONE_RATE: Tariff := Tariff(0, 0, 0, FixedQuote, 0, true, 0, Rates(Fixed, 0, 100, 0, 0, 0))

  const WORKING: map<Id, Driver> := map[0 := Driver(0, Some(0), Online, true), 1 := Driver(1, Some(0), Online, true)]

  function NewRow(byPark: bool): Order {
    Order(0, byPark, Some(0), FixedQuote, Some(Route(0, 0)), None, Created, None, None, None, None, None, None, None, None,
          None, [], None, 1, [])
  }

  /** Order 0 is a passenger's and asks for the price, order 1 a park's. */
  const READY: Db := Db(0, map[0 := NewRow(false), 1 := NewRow(true)], WORKING, map[0 := ONE_RATE])

  lemma OneMore(start: Desk, steps: seq<Step>, s: Desk, step: Step, next: Desk)
    requires DoAll(start, steps) == s && next == Do(s, step)
    ensures DoAll(start, steps + [step]) == next
  {
    DoOneMore(start, steps, step);
  }

  function Staff(drivers: map<Id, Driver>): Db {
    Db(0, map[], drivers, map[])
  }

  function Bare(db: Db, service: NormalConfig): Desk {
    Desk(db, NO_KEYS, [], map[], service)
  }

  lemma Hired(service: NormalConfig) returns (steps: seq<Step>)
    ensures DoAll(Opening(service), steps) == Bare(Staff(map[0 := Driver(0, Some(0), Offline, false), 1 := Driver(1, Some(0), Offline, false)]), service)
    ensures forall i :: 0 <= i < |steps| ==> steps[i].Outside?
  {
    var start := Opening(service);
    var a, b := Outside(NewDriver(0, 0, Some(0))), Outside(NewDriver(1, 1, Some(0)));
    var one := Staff(map[0 := Driver(0, Some(0), Offline, false)]);
    OneMore(start, [], start, a, Bare(one, service));
    OneMore(start, [] + [a], Bare(one, service), b, Do(Bare(one, service), b));
    steps := [] + [a] + [b];
  }

  lemma HalfStaffed(service: NormalConfig) returns (steps: seq<Step>)
    ensures DoAll(Opening(service), steps) == Bare(Staff(map[0 := Driver(0, Some(0), Online, true), 1 := Driver(1, Some(0), Offline, false)]), service)
    ensures forall i :: 0 <= i < |steps| ==> steps[i].Outside?
  {
    var start, a := Opening(service), Outside(PutDriver(0, Online, true));
    steps := Hired(service);
    var one := Staff(map[0 := Driver(0, Some(0), Online, true), 1 := Driver(1, Some(0), Offline, false)]);
    OneMore(start, steps, DoAll(start, steps), a, Bare(one, service));
    steps := steps + [a];
  }

  lemma Staffed(service: NormalConfig) returns (steps: seq<Step>)
    ensures DoAll(Opening(service), steps) == Bare(Staff(WORKING), service)
    ensures forall i :: 0 <= i < |steps| ==> steps[i].Outside?
  {
    var start, b := Opening(service), Outside(PutDriver(1, Online, true));
    steps := HalfStaffed(service);
    OneMore(start, steps, DoAll(start, steps), b, Bare(Staff(WORKING), service));
    steps := steps + [b];
  }

  lemma Priced(service: NormalConfig) returns (steps: seq<Step>)
    ensures DoAll(Opening(service), steps) == Bare(Staff(WORKING).(tariffs := READY.tariffs), service)
    ensures forall i :: 0 <= i < |steps| ==> steps[i].Outside?
  {
    steps := Staffed(service);
    var a := Outside(PutTariff(ONE_RATE));
    OneMore(Opening(service), steps, Bare(Staff(WORKING), service), a, Bare(Staff(WORKING).(tariffs := READY.tariffs), service));
    steps := steps + [a];
  }

  lemma Prepared(service: NormalConfig) returns (steps: seq<Step>)
    ensures DoAll(Opening(service), steps) == Bare(READY, service)
    ensures forall i :: 0 <= i < |steps| ==> steps[i].Outside?
  {
    var start := Opening(service);
    steps := Priced(service);
    var a, b := Outside(NewOrder(0, NewRow(false))), Outside(NewOrder(1, NewRow(true)));
    var one := READY.(orders := map[0 := NewRow(false)]);
    OneMore(start, steps, DoAll(start, steps), a, Bare(one, service));
    OneMore(start, steps + [a], Bare(one, service), b, Bare(READY, service));
    steps := steps + [a] + [b];
  }

  // ----- a request and its first offer -----

  /** Both drivers work, the tariff stands, and each order is as it came or searching. */
  predicate Idling(s: Desk) {
    && s.db.drivers == WORKING && s.db.tariffs == map[0 := ONE_RATE] && s.db.orders.Keys == {0, 1}
    && s.queue == []
    && forall o :: o in s.db.orders ==>
         var row, was := s.db.orders[o], READY.orders[o];
         && (row.status == Created || row.status == Searching) && row.driver.None? && row.declined == []
         && row.byPark == was.byPark && row.carClass == was.carClass && row.fareMode == was.fareMode && row.route == was.route
  }

  lemma BothAreFound(s: Desk, o: Id, d: Id)
    requires Idling(s) && o in s.db.orders && d in WORKING
    ensures Searchable(s.db, s.db.orders[o], d)
  {
    assert Matches(s.db.tariffs[0], s.db.drivers[d], s.db.orders[o]);
  }

  lemma OneIsFound(db: Db, row: Order, d: Id, limit: nat)
    requires Searchable(db, row, d) && limit > 0
    ensures Nearest(db, row, [d], [], limit) == [d]
  {
    assert [d][..0] == [];
    assert Candidates(db, row, [], []) == [];
  }

  function TaskConfig(service: NormalConfig, config: Option<Config>): NormalConfig {
    ConfigFor(service, Task(0, 0, 0, [], config))
  }

  function FirstOffer(o: Id, d: Id, now: Instant, c: NormalConfig): Offer {
    Offer(o, d, 0, c.radii[0], now + c.offerTtl, now, c.lockTtl / 1_000_000)
  }

  lemma AskedState(s: Desk, o: Id, config: Option<Config>)
    requires CanStartSearch(s.db, o)
    ensures Do(s, Enqueue(o, config)) == Publish(s.(db := StartSearch(s.db, o)), Task(o, 0, s.db.now, [], config))
  {
  }

  lemma SearchIdles(s: Desk, o: Id)
    requires Idling(s) && o in s.db.orders
    ensures CanStartSearch(s.db, o) && Idling(s.(db := StartSearch(s.db, o))) && StartSearch(s.db, o).orders[o].status == Searching
  {
  }

  lemma FoundOne(s: Desk, o: Id, config: Option<Config>, d: Id)
    requires Idling(s) && o in s.db.orders && d in WORKING
    ensures Found(s, Task(o, 0, s.db.now, [], config), [d]) == [d]
  {
    var task := Task(o, 0, s.db.now, [], config);
    BothAreFound(s, o, d);
    assert [] + s.db.orders[o].declined == [];
    OneIsFound(s.db, s.db.orders[o], d, ConfigFor(s.config, task).maxDrivers);
  }

  lemma OneOffer(keys: Keys, now: Instant, o: Id, d: Id, c: NormalConfig)
    requires Find(keys, now, o, d).None?
    ensures OfferAll(keys, now, o, 0, c.radii[0], [d], c) == Save(keys, now, FirstOffer(o, d, now, c), c.offerTtl)
  {
    assert [d][..0] == [];
  }

  lemma PublishedAlone(s: Desk, task: Task)
    requires s.queue == []
    ensures Publish(s, task).queue != [] && Publish(s, task).queue[0] == task
    ensures Publish(s, task).(queue := Publish(s, task).queue[1..]) == s
  {
    assert Publish(s, task).queue == [task] && [task][1..] == [];
  }

  lemma OnlyTask(s: Desk, task: Task, nearby: seq<Id>)
    requires s.queue == [] && task.order in s.db.orders && s.db.orders[task.order].status == Searching
    ensures Process(Publish(s, task), nearby) == Search(s, task, nearby)
  {
    PublishedAlone(s, task);
  }

  lemma SearchOffers(s: Desk, task: Task, d: Id, c: NormalConfig)
    requires task.order in s.db.orders && task.attempt == 0 && Found(s, task, [d]) == [d] && c == ConfigFor(s.config, task)
    ensures var after := Search(s, task, [d]);
            && after.db == s.db && after.config == s.config && after.queue == s.queue
            && after.keys == OfferAll(s.keys, s.db.now, task.order, 0, c.radii[0], [d], c)
  {
  }

  /** The first attempt offers the order to the one driver near. */
  lemma AttemptOffers(s: Desk, o: Id, config: Option<Config>, d: Id, task: Task)
    requires Idling(s) && o in s.db.orders && d in WORKING && Find(s.keys, s.db.now, o, d).None?
    requires task == Task(o, 0, s.db.now, [], config)
    ensures var c, after := TaskConfig(s.config, config), Search(s, task, [d]);
            && after.db == s.db && after.config == s.config && after.queue == s.queue
            && after.keys == Save(s.keys, s.db.now, FirstOffer(o, d, s.db.now, c), c.offerTtl)
  {
    FoundOne(s, o, config, d);
    SearchOffers(s, task, d, TaskConfig(s.config, config));
    OneOffer(s.keys, s.db.now, o, d, TaskConfig(s.config, config));
  }

  /** A request and its first attempt. */
  lemma RequestOffers(s: Desk, o: Id, config: Option<Config>, d: Id, asked: Desk, after: Desk)
    requires Idling(s) && o in s.db.orders && d in WORKING && Find(s.keys, s.db.now, o, d).None?
    requires asked == Do(s, Enqueue(o, config)) && after == Do(asked, ProcessTask([d]))
    ensures var c := TaskConfig(s.config, config);
            && Idling(after) && after.config == s.config && after.db == StartSearch(s.db, o)
            && after.keys == Save(s.keys, s.db.now, FirstOffer(o, d, s.db.now, c), c.offerTtl)
  {
    var task, searching := Task(o, 0, s.db.now, [], config), s.(db := StartSearch(s.db, o));
    SearchIdles(s, o);
    AskedState(s, o, config);
    OnlyTask(searching, task, [d]);
    AttemptOffers(searching, o, config, d, task);
  }

  /** The order can be requested, by a caller the run admits, and offered to the driver. */
  ghost predicate Requestable(s: Desk, o: Id, config: Option<Config>, d: Id, allowed: set<Option<Config>>) {
    && Idling(s) && o in s.db.orders && d in WORKING && Find(s.keys, s.db.now, o, d).None?
    && (s.db.orders[o].byPark || config in allowed)
  }

  /** The same at the end of a run from the opening. */
  lemma Requested(service: NormalConfig, steps: seq<Step>, o: Id, config: Option<Config>, d: Id, allowed: set<Option<Config>>)
      returns (longer: seq<Step>)
    requires var s := DoAll(Opening(service), steps);
             Requestable(s, o, config, d, allowed) && s.config == service
    requires AllPass(Opening(service), steps, allowed)
    ensures AllPass(Opening(service), longer, allowed) && longer == steps + [Enqueue(o, config)] + [ProcessTask([d])]
    ensures var s, after := DoAll(Opening(service), steps), DoAll(Opening(service), longer);
            var c := TaskConfig(service, config);
            && Idling(after) && after.config == service && after.db == StartSearch(s.db, o)
            && after.keys == Save(s.keys, s.db.now, FirstOffer(o, d, s.db.now, c), c.offerTtl)
  {
    var start := Opening(service);
    var s := DoAll(start, steps);
    var asked := Do(s, Enqueue(o, config));
    RequestOffers(s, o, config, d, asked, Do(asked, ProcessTask([d])));
    PassOneMore(start, steps, Enqueue(o, config), allowed);
    OneMore(start, steps, s, Enqueue(o, config), asked);
    longer := steps + [Enqueue(o, config)];
    PassOneMore(start, longer, ProcessTask([d]), allowed);
    OneMore(start, longer, asked, ProcessTask([d]), Do(asked, ProcessTask([d])));
    longer := longer + [ProcessTask([d])];
  }

  lemma {:induction false} OutsidePasses(s: Desk, steps: seq<Step>, allowed: set<Option<Config>>)
    requires forall i :: 0 <= i < |steps| ==> steps[i].Outside?
    ensures AllPass(s, steps, allowed)
    decreases |steps|
  {
    if steps != [] {
      OutsidePasses(Do(s, steps[0]), steps[1..], allowed);
    }
  }

  lemma ReadyIdles(service: NormalConfig)
    ensures Idling(Bare(READY, service))
  {
  }

  lemma Waited(service: NormalConfig, steps: seq<Step>, s: Desk, wait: Instant, allowed: set<Option<Config>>)
    requires AllPass(Opening(service), steps, allowed) && s == DoAll(Opening(service), steps) && s.db.now <= wait
    ensures AllPass(Opening(service), steps + [Outside(Tick(wait))], allowed)
    ensures DoAll(Opening(service), steps + [Outside(Tick(wait))]) == s.(db := s.db.(now := wait))
  {
    PassOneMore(Opening(service), steps, Outside(Tick(wait)), allowed);
    OneMore(Opening(service), steps, s, Outside(Tick(wait)), s.(db := s.db.(now := wait)));
  }

  lemma IdlingDriverCanAccept(s: Desk, o: Id, d: Id)
    requires Idling(s) && o in s.db.orders && d in WORKING && s.db.orders[o].status == Searching && OfferOpen(s, o, d)
    ensures CanAccept(s, o, d, true)
  {
    var row, driver := s.db.orders[o], s.db.drivers[d];
    assert Matches(ONE_RATE, driver, row);
    assert IsTop(s.db.tariffs, driver, row, 0);
    TopIsUnique(s.db.tariffs, driver, row, 0);
    assert CandidateFare(s.db, o, d) == Some(Fare(ONE_RATE, Route(0, 0)));
    assert TripPrice(ONE_RATE.rates, 0, 0) == Ok(100);
  }
}
