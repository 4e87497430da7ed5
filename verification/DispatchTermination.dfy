/** Dispatch comes to an end: a potential that every effective service call lowers and nothing outside raises. */
module DispatchTermination {
  import opened Prelude
  import opened Orders
  import opened Database
  import opened Edges
  import opened Reservations
  import opened OfferStore
  import opened Dispatch
  import opened DispatchSafety

  // ----- the potential -----

  /** What a chain of attempts can still cause: each attempt is processed, offers to at most so many drivers, and times out. */
  function Chain(c: NormalConfig, attempt: int): nat
    decreases |c.radii| - attempt
  {
    if 0 <= attempt < |c.radii| then Chain(c, attempt + 1) + c.maxDrivers + 2 else 1
  }

  function QueueWeight(service: NormalConfig, task: Task): nat {
    Chain(ConfigFor(service, task), task.attempt)
  }

  function TimeoutWeight(service: NormalConfig, task: Task): nat {
    if task.attempt == -1 then 1 else 1 + Chain(ConfigFor(service, task), task.attempt + 1)
  }

  function QueueTotal(service: NormalConfig, queue: seq<Task>): nat {
    if queue == [] then 0 else QueueWeight(service, queue[0]) + QueueTotal(service, queue[1..])
  }

  ghost function TimeoutTotal(service: NormalConfig, timeouts: map<Task, Score>): nat {
    Total(map t | t in timeouts :: TimeoutWeight(service, t))
  }

  /** The drivers who have not been released from the order yet. */
  function Untried(drivers: set<Id>, declined: seq<Id>): set<Id> {
    set d | d in drivers && d !in declined
  }

  function OpenWeight(row: Order): nat {
    if row.status == Created || row.status == Searching then 3
    else if row.status == DriverAssigned && row.confirmation == Some(Pending) then 1
    else 0
  }

  /** Each release uses up one driver and pays for a whole new chain. */
  function OrderWeight(service: NormalConfig, drivers: set<Id>, row: Order): nat {
    (Chain(service, 0) + 3) * |Untried(drivers, row.declined)| + OpenWeight(row)
  }

  ghost function OrderTotal(service: NormalConfig, db: Db): nat {
    Total(map o | o in db.orders :: OrderWeight(service, db.drivers.Keys, db.orders[o]))
  }

  ghost function Potential(s: Desk): nat {
    QueueTotal(s.config, s.queue) + TimeoutTotal(s.config, s.timeouts) + OrderTotal(s.config, s.db) + |s.keys.offers|
  }

  // ----- how each part changes -----

  lemma {:induction false} QueuePublished(service: NormalConfig, queue: seq<Task>, task: Task)
    ensures QueueTotal(service, queue + [task]) == QueueTotal(service, queue) + QueueWeight(service, task)
  {
    if queue != [] {
      assert (queue + [task])[1..] == queue[1..] + [task];
      QueuePublished(service, queue[1..], task);
    } else {
      assert [task][1..] == [];
      assert queue + [task] == [task];
    }
  }

  lemma TimeoutScheduled(service: NormalConfig, timeouts: map<Task, Score>, task: Task, at: Score)
    ensures TimeoutTotal(service, timeouts[task := at]) <= TimeoutTotal(service, timeouts) + TimeoutWeight(service, task)
  {
    var weights := map t | t in timeouts :: TimeoutWeight(service, t);
    TotalPut(weights, task, TimeoutWeight(service, task));
    assert weights[task := TimeoutWeight(service, task)] == map t | t in timeouts[task := at] :: TimeoutWeight(service, t);
  }

  lemma TimeoutRemoved(service: NormalConfig, timeouts: map<Task, Score>, task: Task)
    requires task in timeouts
    ensures TimeoutTotal(service, timeouts) == TimeoutTotal(service, timeouts - {task}) + TimeoutWeight(service, task)
  {
    var weights := map t | t in timeouts :: TimeoutWeight(service, t);
    TotalRemove(weights, task);
    assert weights - {task} == map t | t in timeouts - {task} :: TimeoutWeight(service, t);
  }

  /** One row changes, and with it only its own weight. */
  lemma OrderChanged(service: NormalConfig, db: Db, after: Db, o: Id, row: Order)
    requires o in db.orders && after.orders == db.orders[o := row] && after.drivers.Keys == db.drivers.Keys
    ensures OrderTotal(service, after) + OrderWeight(service, db.drivers.Keys, db.orders[o])
         == OrderTotal(service, db) + OrderWeight(service, db.drivers.Keys, row)
  {
    var ids := db.drivers.Keys;
    var weights := map p | p in db.orders :: OrderWeight(service, ids, db.orders[p]);
    TotalPut(weights, o, OrderWeight(service, ids, row));
    assert weights[o := OrderWeight(service, ids, row)] == map p | p in after.orders :: OrderWeight(service, ids, after.orders[p]);
  }

  lemma SavedOffers(keys: Keys, now: Instant, offer: Offer, ttl: Lifetime)
    ensures |Save(keys, now, offer, ttl).offers| <= |keys.offers| + 1
  {
    var k := OfferKey(offer.order, offer.driver);
    assert Save(keys, now, offer, ttl).offers.Keys == keys.offers.Keys + {k};
    if k in keys.offers {
      assert keys.offers.Keys + {k} == keys.offers.Keys;
    }
    MapSize(Save(keys, now, offer, ttl).offers);
    MapSize(keys.offers);
  }

  lemma MapSize<K, V>(m: map<K, V>)
    ensures |m| == |m.Keys|
  {
  }

  lemma {:induction false} OfferedOffers(keys: Keys, now: Instant, o: Id, attempt: int, radius: int, drivers: seq<Id>, c: NormalConfig)
    ensures |OfferAll(keys, now, o, attempt, radius, drivers, c).offers| <= |keys.offers| + |drivers|
  {
    if drivers != [] {
      var front, d := drivers[..|drivers| - 1], drivers[|drivers| - 1];
      OfferedOffers(keys, now, o, attempt, radius, front, c);
      SavedOffers(OfferAll(keys, now, o, attempt, radius, front, c), now,
                  Offer(o, d, attempt, radius, now + c.offerTtl, now, c.lockTtl / 1_000_000), c.offerTtl);
    }
  }

  lemma SubsetSize<T>(a: set<T>, b: set<T>)
    requires a <= b
    ensures |a| <= |b|
    ensures a != b ==> |a| < |b|
  {
    assert b == a + (b - a);
  }

  lemma ClearedOffers(keys: Keys, now: Instant, o: Id)
    ensures |Clear(keys, now, o).offers| <= |keys.offers|
  {
    MapSize(keys.offers);
    MapSize(Clear(keys, now, o).offers);
    SubsetSize(Clear(keys, now, o).offers.Keys, keys.offers.Keys);
  }

  lemma RemovedOffers(keys: Keys, now: Instant, o: Id, d: Id)
    ensures |Remove(keys, now, o, d).offers| <= |keys.offers|
    ensures Find(keys, now, o, d).Some? ==> |Remove(keys, now, o, d).offers| < |keys.offers|
  {
    MapSize(keys.offers);
    MapSize(Remove(keys, now, o, d).offers);
    SubsetSize(Remove(keys, now, o, d).offers.Keys, keys.offers.Keys);
  }

  // ----- orders -----

  /** Giving up ends what searching could still cause. */
  lemma GiveUpLowers(service: NormalConfig, db: Db, o: Id)
    ensures OrderTotal(service, GiveUp(db, o)) <= OrderTotal(service, db)
  {
    if CanGiveUp(db, o) {
      OrderChanged(service, db, GiveUp(db, o), o, GiveUp(db, o).orders[o]);
    }
  }

  lemma StartSearchKeeps(service: NormalConfig, db: Db, o: Id)
    ensures OrderTotal(service, StartSearch(db, o)) == OrderTotal(service, db)
  {
    if CanStartSearch(db, o) {
      OrderChanged(service, db, StartSearch(db, o), o, StartSearch(db, o).orders[o]);
    }
  }

  lemma AssignLowers(service: NormalConfig, db: Db, b: Bid)
    requires CanAssign(db, b)
    ensures OrderTotal(service, Assign(db, b)) + (if b.needsConfirmation then 2 else 3) == OrderTotal(service, db)
  {
    OrderChanged(service, db, Assign(db, b), b.order, AssignedRow(db, b));
  }

  lemma ConfirmLowers(service: NormalConfig, db: Db, o: Id, passenger: Id)
    ensures CanConfirm(db, o, passenger) ==>
              OrderTotal(service, ConfirmPrice(db, o, passenger)) + 1 == OrderTotal(service, db)
  {
    if CanConfirm(db, o, passenger) {
      OrderChanged(service, db, ConfirmPrice(db, o, passenger), o, ConfirmPrice(db, o, passenger).orders[o]);
    }
  }

  lemma DeclinedShrinks(drivers: set<Id>, declined: seq<Id>, d: Id)
    requires d in drivers && d !in declined
    ensures |Untried(drivers, declined)| == |Untried(drivers, declined + [d])| + 1
  {
    assert Untried(drivers, declined) == Untried(drivers, declined + [d]) + {d};
  }

  /** A release frees the driver for other orders, and costs one whole chain and one driver. */
  lemma ReleaseLowers(service: NormalConfig, db: Db, o: Id, d: Id)
    requires CanRelease(db, o, d) && d in db.drivers && d !in db.orders[o].declined
    ensures OrderTotal(service, Release(db, o, d)) + Chain(service, 0) + 1 == OrderTotal(service, db)
  {
    var row, ids := db.orders[o], db.drivers.Keys;
    OrderChanged(service, db, Release(db, o, d), o, ReleasedRow(row, d));
    DeclinedShrinks(ids, row.declined, d);
    Spread(Chain(service, 0) + 3, |Untried(ids, row.declined + [d])|);
  }

  lemma Spread(c: nat, n: nat)
    ensures c * (n + 1) == c * n + c
  {
  }

  lemma EdgeLighter(before: Order, after: Order, a: Action, o: Id, now: Instant)
    requires Edge(before, after, a, o, now) && Foreign(a)
    ensures OpenWeight(after) <= OpenWeight(before) && after.declined == before.declined
  {
  }

  lemma ForeignRowLighter(db: Db, a: Action, o: Id)
    requires Foreign(a) && o in db.orders
    ensures var after := Apply(db, a).orders;
            o in after && OpenWeight(after[o]) <= OpenWeight(db.orders[o]) && after[o].declined == db.orders[o].declined
  {
    ActionEdge(db, a, o);
    EdgeLighter(db.orders[o], Apply(db, a).orders[o], a, o, db.now);
  }

  lemma ForeignKeepsKeys(db: Db, a: Action)
    requires Foreign(a) && !a.NewOrder? && !a.NewDriver?
    ensures Apply(db, a).orders.Keys == db.orders.Keys && Apply(db, a).drivers.Keys == db.drivers.Keys
  {
  }

  /** Nothing outside the service raises what the orders can still cause. */
  lemma ForeignLowers(service: NormalConfig, db: Db, a: Action)
    requires Foreign(a) && !a.NewOrder? && !a.NewDriver?
    ensures OrderTotal(service, Apply(db, a)) <= OrderTotal(service, db)
  {
    var after := Apply(db, a);
    ForeignKeepsKeys(db, a);
    var ids := db.drivers.Keys;
    var before := map o | o in db.orders :: OrderWeight(service, ids, db.orders[o]);
    var later := map o | o in after.orders :: OrderWeight(service, ids, after.orders[o]);
    forall o | o in later
      ensures o in before && later[o] <= before[o]
    {
      ForeignRowLighter(db, a, o);
    }
    TotalMonotone(later, before);
  }

  // ----- calls -----

  ghost predicate Lowers(s: Desk, next: Desk) {
    next == s || Potential(next) < Potential(s)
  }

  ghost predicate NotRaised(s: Desk, next: Desk) {
    Potential(next) <= Potential(s)
  }

  lemma ScheduleCosts(s: Desk, task: Task, after: nat)
    ensures Potential(Schedule(s, task, after)) <= Potential(s) + TimeoutWeight(s.config, task)
  {
    TimeoutScheduled(s.config, s.timeouts, task, Milli(s.db.now + after));
  }

  lemma OfferingCosts(s: Desk, o: Id, attempt: int, radius: int, drivers: seq<Id>, c: NormalConfig)
    ensures Potential(s.(keys := OfferAll(s.keys, s.db.now, o, attempt, radius, drivers, c))) <= Potential(s) + |drivers|
  {
    OfferedOffers(s.keys, s.db.now, o, attempt, radius, drivers, c);
  }

  lemma AttemptWeighs(s: Desk, task: Task)
    requires task.order in s.db.orders && RadiusFor(ConfigFor(s.config, task), task.attempt).Some?
    ensures QueueWeight(s.config, task)
         == TimeoutWeight(s.config, Listed(s, task)) + ConfigFor(s.config, task).maxDrivers + 1
  {
  }

  lemma OfferedCosts(s: Desk, task: Task, found: seq<Id>, c: NormalConfig, radius: int, next: Desk)
    requires task.order in s.db.orders && c == ConfigFor(s.config, task) && |found| <= c.maxDrivers
    requires RadiusFor(c, task.attempt).Some?
    requires next == Schedule(s.(keys := OfferAll(s.keys, s.db.now, task.order, task.attempt, radius, found, c)),
                              Listed(s, task), c.offerTtl)
    ensures Potential(next) < Potential(s) + QueueWeight(s.config, task)
  {
    OfferingCosts(s, task.order, task.attempt, radius, found, c);
    ScheduleCosts(s.(keys := OfferAll(s.keys, s.db.now, task.order, task.attempt, radius, found, c)), Listed(s, task), c.offerTtl);
    AttemptWeighs(s, task);
  }

  lemma SearchCosts(s: Desk, task: Task, nearby: seq<Id>)
    requires task.order in s.db.orders
    ensures Potential(Search(s, task, nearby)) < Potential(s) + QueueWeight(s.config, task)
  {
    if Exhausted(s, task, nearby) {
      GiveUpLowers(s.config, s.db, task.order);
    } else {
      var c := ConfigFor(s.config, task);
      OfferedCosts(s, task, Found(s, task, nearby), c, RadiusFor(c, task.attempt).value, Search(s, task, nearby));
    }
  }

  /** Processing a task always costs potential, whatever comes of it. */
  lemma ProcessLowers(s: Desk, nearby: seq<Id>, next: Desk)
    requires next == Process(s, nearby)
    ensures Lowers(s, next)
  {
    if s.queue == [] {
      return;
    }
    var task, rest := s.queue[0], s.(queue := s.queue[1..]);
    assert Potential(s) == Potential(rest) + QueueWeight(s.config, task);
    if task.order in s.db.orders {
      if s.db.orders[task.order].status == Searching {
        SearchCosts(rest, task, nearby);
      } else if CanStartSearch(s.db, task.order) {
        StartSearchKeeps(s.config, s.db, task.order);
        SearchCosts(rest.(db := StartSearch(s.db, task.order)), task, nearby);
      }
    }
  }

  lemma HeldDriver(s: Desk, o: Id, d: Id)
    requires DeskOk(s) && CanRelease(s.db, o, d)
    ensures d in s.db.drivers && d !in s.db.orders[o].declined
  {
    assert RowFits(s.db.orders[o]);
  }

  lemma ReleasePriceLowers(s: Desk, o: Id, d: Id)
    requires DeskOk(s) && CanRelease(s.db, o, d)
    ensures Potential(ReleasePrice(s, o, d)) < Potential(s)
  {
    HeldDriver(s, o, d);
    ReleaseLowers(s.config, s.db, o, d);
    QueuePublished(s.config, s.queue, Task(o, 0, s.db.now, [d], None));
  }

  lemma RetryCosts(s: Desk, task: Task, offered: seq<Id>)
    requires task.attempt != -1
    ensures Potential(Retry(s, task, offered)) < Potential(s) + TimeoutWeight(s.config, task)
  {
    var next := Task(task.order, task.attempt + 1, s.db.now, Deduplicated(task.exclude + offered), task.config);
    GiveUpLowers(s.config, s.db, task.order);
    QueuePublished(s.config, s.queue, next);
  }

  lemma DroppingLowers(s: Desk, task: Task)
    requires task in s.timeouts
    ensures Potential(s) == Potential(s.(timeouts := s.timeouts - {task})) + TimeoutWeight(s.config, task)
  {
    TimeoutRemoved(s.config, s.timeouts, task);
  }

  /** Handling a due task costs potential, unless it leaves everything as it was. */
  lemma TimeoutLowers(s: Desk, task: Task, offered: seq<Id>, next: Desk)
    requires next == Timeout(s, task, offered)
    requires DeskOk(s)
    ensures Lowers(s, next)
  {
    if Timeout(s, task, offered) == s {
      return;
    }
    if task.attempt == -1 {
      var row := s.db.orders[task.order];
      if Lapsed(row, s.db.now) {
        ReleasePriceLowers(s, task.order, row.driver.value);
      }
      DroppingLowers(ExpirePrice(s, task.order), task);
    } else {
      DroppingLowers(s, task);
      if s.db.orders[task.order].status == Searching {
        ClearedOffers(s.keys, s.db.now, task.order);
        var cleared := s.(keys := Clear(s.keys, s.db.now, task.order), timeouts := s.timeouts - {task});
        RetryCosts(cleared, task, offered);
      }
    }
  }

  lemma TakenLowers(s: Desk, bid: Bid)
    requires CanAssign(s.db, bid)
    ensures Potential(s.(db := Apply(Assign(s.db, bid), MarkBusy(bid.driver)), keys := Clear(s.keys, s.db.now, bid.order)))
            + (if bid.needsConfirmation then 2 else 3) <= Potential(s)
  {
    AssignLowers(s.config, s.db, bid);
    BusyKeeps(s.config, Assign(s.db, bid), bid.driver);
    ClearedOffers(s.keys, s.db.now, bid.order);
  }

  lemma AcceptLowers(s: Desk, o: Id, d: Id, eligible: bool, next: Desk)
    requires next == Accept(s, o, d, eligible)
    ensures Lowers(s, next)
  {
    if !CanAccept(s, o, d, eligible) {
      return;
    }
    var bid := AcceptBid(s, o, d, eligible).value;
    var task := Task(o, -1, s.db.now, [d], None);
    ScheduleCosts(s, task, s.config.confirmationTtl);
    TakenLowers(if bid.needsConfirmation then Schedule(s, task, s.config.confirmationTtl) else s, bid);
  }

  lemma DeclineLowers(s: Desk, o: Id, passenger: Id, next: Desk)
    requires next == Decline(s, o, passenger)
    requires DeskOk(s)
    ensures Lowers(s, next)
  {
    if CanDecline(s, o, passenger) && CanRelease(s.db, o, s.db.orders[o].driver.value) {
      ReleasePriceLowers(s, o, s.db.orders[o].driver.value);
    }
  }

  lemma ExpireLowers(s: Desk, o: Id, next: Desk)
    requires next == ExpirePrice(s, o)
    requires DeskOk(s)
    ensures Lowers(s, next)
  {
    if o in s.db.orders && Lapsed(s.db.orders[o], s.db.now) && CanRelease(s.db, o, s.db.orders[o].driver.value) {
      ReleasePriceLowers(s, o, s.db.orders[o].driver.value);
    }
  }

  lemma BusyKeeps(service: NormalConfig, db: Db, d: Id)
    ensures OrderTotal(service, Apply(db, MarkBusy(d))) == OrderTotal(service, db)
  {
    assert Apply(db, MarkBusy(d)).drivers.Keys == db.drivers.Keys;
  }

  lemma RejectLowers(s: Desk, o: Id, d: Id, next: Desk)
    requires next == Reject(s, o, d)
    ensures Lowers(s, next)
  {
    RemovedOffers(s.keys, s.db.now, o, d);
  }

  lemma AgreementLowers(s: Desk, o: Id, passenger: Id, next: Desk)
    requires next == s.(db := ConfirmPrice(s.db, o, passenger))
    ensures Lowers(s, next)
  {
    ConfirmLowers(s.config, s.db, o, passenger);
  }

  lemma StopLowers(s: Desk, o: Id, next: Desk)
    requires next == s.(keys := Clear(s.keys, s.db.now, o))
    ensures NotRaised(s, next)
  {
    ClearedOffers(s.keys, s.db.now, o);
  }

  lemma OutsideLowers(s: Desk, a: Action, next: Desk)
    requires Foreign(a) && !a.NewOrder? && !a.NewDriver? && next == s.(db := Apply(s.db, a))
    ensures NotRaised(s, next)
  {
    ForeignLowers(s.config, s.db, a);
  }

  // ----- runs -----

  /** No new orders, drivers or dispatch requests. */
  predicate ClosedStep(step: Step) {
    !step.Enqueue? && (step.Outside? ==> !step.action.NewOrder? && !step.action.NewDriver?)
  }

  predicate ServiceCall(step: Step) {
    !step.Outside? && !step.StopDispatch?
  }

  ghost predicate Effective(s: Desk, step: Step) {
    ServiceCall(step) && Do(s, step) != s
  }

  lemma CallLowers(s: Desk, step: Step)
    requires DeskOk(s) && ServiceCall(step) && !step.Enqueue?
    ensures Lowers(s, Do(s, step))
  {
    match step {
      case ProcessTask(nearby) => ProcessLowers(s, nearby, Do(s, step));
      case HandleTimeout(task, offered) => TimeoutLowers(s, task, offered, Do(s, step));
      case AcceptOffer(o, d, eligible) => AcceptLowers(s, o, d, eligible, Do(s, step));
      case RejectOffer(o, d) => RejectLowers(s, o, d, Do(s, step));
      case ConfirmOrderPrice(o, passenger) => AgreementLowers(s, o, passenger, Do(s, step));
      case DeclineOrderPrice(o, passenger) => DeclineLowers(s, o, passenger, Do(s, step));
      case ExpireOrderPrice(o) => ExpireLowers(s, o, Do(s, step));
    }
  }

  lemma RestNotRaised(s: Desk, step: Step)
    requires ClosedStep(step) && !ServiceCall(step)
    ensures NotRaised(s, Do(s, step))
  {
    if step.StopDispatch? {
      StopLowers(s, step.order, Do(s, step));
    } else if Foreign(step.action) {
      OutsideLowers(s, step.action, Do(s, step));
    }
  }

  /** An effective service call lowers the potential, and nothing else raises it. */
  lemma StepLowers(s: Desk, step: Step)
    requires DeskOk(s) && ClosedStep(step)
    ensures if ServiceCall(step) then Lowers(s, Do(s, step)) else NotRaised(s, Do(s, step))
  {
    if ServiceCall(step) {
      CallLowers(s, step);
    } else {
      RestNotRaised(s, step);
    }
  }

  ghost function EffectiveSteps(s: Desk, steps: seq<Step>): nat
    decreases |steps|
  {
    if steps == [] then 0
    else (if Effective(s, steps[0]) then 1 else 0) + EffectiveSteps(Do(s, steps[0]), steps[1..])
  }

  /** What a step takes from the potential pays for its effect. */
  ghost predicate Pays(s: Desk, effective: bool, next: Desk) {
    (if effective then 1 else 0) + Potential(next) <= Potential(s)
  }

  lemma OneStepEnds(s: Desk, step: Step, next: Desk)
    requires DeskOk(s) && ClosedStep(step) && next == Do(s, step)
    ensures Pays(s, Effective(s, step), next) && DeskOk(next)
  {
    StepLowers(s, step);
    DoKeeps(s, step);
  }

  ghost predicate EndsInTime(s: Desk, steps: seq<Step>) {
    EffectiveSteps(s, steps) + Potential(DoAll(s, steps)) <= Potential(s)
  }

  /** A run ends in time when it does so after its first step, which pays for itself. */
  lemma FirstStepPays(s: Desk, steps: seq<Step>, next: Desk)
    requires steps != [] && next == Do(s, steps[0]) && Pays(s, Effective(s, steps[0]), next)
    ensures EndsInTime(next, steps[1..]) ==> EndsInTime(s, steps)
  {
  }

  lemma FirstStep(s: Desk, steps: seq<Step>) returns (next: Desk)
    requires DeskOk(s) && steps != [] && AllClosed(steps)
    ensures DeskOk(next) && AllClosed(steps[1..])
    ensures EndsInTime(next, steps[1..]) ==> EndsInTime(s, steps)
  {
    next := Do(s, steps[0]);
    OneStepEnds(s, steps[0], next);
    FirstStepPays(s, steps, next);
  }

  predicate AllClosed(steps: seq<Step>) {
    forall i :: 0 <= i < |steps| ==> ClosedStep(steps[i])
  }

  /** Dispatch terminates: from any state that the service can be in, and however long a run goes on without new orders,
      drivers and requests, only so many of its service calls have any effect as the potential of that state says,
      though stale timeouts of earlier chains are still alive, and whatever lifetimes parks configure. */
  lemma {:induction false} DispatchTerminates(s: Desk, steps: seq<Step>)
    requires DeskOk(s) && AllClosed(steps)
    ensures EndsInTime(s, steps)
    decreases |steps|
  {
    if steps != [] {
      var next := FirstStep(s, steps);
      DispatchTerminates(next, steps[1..]);
    }
  }

  // ----- why the offers must live equally long -----

  /** An acceptance and the passenger's refusal. */
  ghost function Refused(s: Desk, o: Id, d: Id, eligible: bool): Desk
    requires o in s.db.orders
  {
    Decline(Accept(s, o, d, eligible), o, s.db.orders[o].passenger)
  }

  lemma ReleasedBids(db: Db, bid: Bid)
    requires CanAssign(db, bid) && bid.needsConfirmation
    ensures var busy := Apply(Assign(db, bid), MarkBusy(bid.driver));
            && CanRelease(busy, bid.order, bid.driver)
            && busy.orders[bid.order].passenger == db.orders[bid.order].passenger
            && Biddable(db, Release(busy, bid.order, bid.driver), bid.order)
            && var row := Release(busy, bid.order, bid.driver).orders[bid.order];
               row.passenger == db.orders[bid.order].passenger && row.declined == db.orders[bid.order].declined + [bid.driver]
  {
  }

  /** Only the order's row has changed, and only in what no acceptance looks at. */
  lemma RefusalLeavesTables(s: Desk, o: Id, d: Id, eligible: bool)
    requires CanAccept(s, o, d, eligible) && !s.db.orders[o].byPark
    ensures var again := Refused(s, o, d, eligible);
            && Biddable(s.db, again.db, o)
            && again.db.orders[o].passenger == s.db.orders[o].passenger
            && again.db.orders[o].declined == s.db.orders[o].declined + [d]
  {
    ReleasedBids(s.db, AcceptBid(s, o, d, eligible).value);
  }

  /** Its listed offers are gone, and a task is queued. */
  lemma RefusalLeaves(s: Desk, o: Id, d: Id, eligible: bool)
    requires CanAccept(s, o, d, eligible) && !s.db.orders[o].byPark
    ensures var again := Refused(s, o, d, eligible);
            again.config == s.config && again.keys == Clear(s.keys, s.db.now, o) && |again.queue| == |s.queue| + 1
  {
  }

  lemma ClearedOfferOpenIff(s: Desk, again: Desk, o: Id, d: Id)
    requires OfferOpen(s, o, d) && again.keys == Clear(s.keys, s.db.now, o) && again.db.now == s.db.now
    ensures OfferOpen(again, o, d) <==> d !in Members(s.keys.byOrder, s.db.now, o)
    ensures Members(again.keys.byOrder, again.db.now, o) == {}
  {
    ClearTakesTheListed(s.keys, s.db.now, o, o, d);
  }

  /** A passenger declines the driver who just accepted. Whether that driver's offer is still open then depends on one
      thing: whether the order's index listed it. */
  lemma DeclinedOfferReturnsIffUnlisted(s: Desk, o: Id, d: Id, eligible: bool)
    requires CanAccept(s, o, d, eligible) && !s.db.orders[o].byPark
    ensures var declined := Refused(s, o, d, eligible);
            && o in declined.db.orders && d in declined.db.orders[o].declined
            && declined.db.orders[o].status == Searching
            && (OfferOpen(declined, o, d) <==> d !in Members(s.keys.byOrder, s.db.now, o))
  {
    RefusalLeavesTables(s, o, d, eligible);
    RefusalLeaves(s, o, d, eligible);
    ClearedOfferOpenIff(s, Refused(s, o, d, eligible), o, d);
  }

  lemma StillAccepts(s: Desk, again: Desk, o: Id, d: Id, eligible: bool)
    requires Consistent(s.db) && CanAccept(s, o, d, eligible) && Biddable(s.db, again.db, o)
    requires again.config == s.config && OfferOpen(again, o, d)
    ensures CanAccept(again, o, d, eligible)
  {
    var bid := AcceptBid(s, o, d, eligible).value;
    SameFare(s.db, again.db, o, d, bid.fare.tariff.id);
    SameBid(s, again, o, d, eligible);
    SameGuards(s.db, again.db, bid);
  }

  /** A driver whose offer the index does not list can accept again right after each refusal, in a state where the same
      holds. */
  lemma UnlistedOfferNeverEnds(s: Desk, o: Id, d: Id, eligible: bool)
    requires Consistent(s.db) && CanAccept(s, o, d, eligible) && !s.db.orders[o].byPark
    requires d !in Members(s.keys.byOrder, s.db.now, o)
    ensures var again := Refused(s, o, d, eligible);
            && CanAccept(again, o, d, eligible) && !again.db.orders[o].byPark
            && d !in Members(again.keys.byOrder, again.db.now, o)
            && |again.queue| == |s.queue| + 1
  {
    var again := Refused(s, o, d, eligible);
    RefusalLeavesTables(s, o, d, eligible);
    RefusalLeaves(s, o, d, eligible);
    ClearedOfferOpenIff(s, again, o, d);
    StillAccepts(s, again, o, d, eligible);
  }

  /** The tariff on top depends on the class and mode of the order only. */
  lemma SameTop(tariffs: map<Id, Tariff>, driver: Driver, was: Order, row: Order, t: Id)
    requires KeyedById(tariffs) && IsTop(tariffs, driver, was, t)
    requires row.carClass == was.carClass && row.fareMode == was.fareMode
    ensures IsTop(tariffs, driver, row, t) && TopTariff(tariffs, driver, row) == TopTariff(tariffs, driver, was)
  {
    TopIsUnique(tariffs, driver, was, t);
    assert IsTop(tariffs, driver, row, t);
    TopIsUnique(tariffs, driver, row, t);
  }

  lemma StillFree(orders: map<Id, Order>, after: map<Id, Order>, o: Id, d: Id)
    requires !HasActiveOrder(orders, d) && o in after && after == orders[o := after[o]] && after[o].driver.None?
    ensures !HasActiveOrder(after, d)
  {
  }

  /** The order's row has changed in nothing that an acceptance looks at. */
  predicate Biddable(db: Db, again: Db, o: Id) {
    && again.now == db.now && again.tariffs == db.tariffs && again.drivers == db.drivers
    && o in db.orders && o in again.orders && again.orders == db.orders[o := again.orders[o]]
    && var row, was := again.orders[o], db.orders[o];
    && row.status == Searching && row.driver.None? && row.route == was.route && row.byPark == was.byPark
    && row.carClass == was.carClass && row.fareMode == was.fareMode
  }

  lemma SameFare(db: Db, again: Db, o: Id, d: Id, t: Id)
    requires Consistent(db) && Biddable(db, again, o) && db.orders[o].status == Searching
    requires d in db.drivers && IsTop(db.tariffs, db.drivers[d], db.orders[o], t)
    ensures CandidateFare(again, o, d) == CandidateFare(db, o, d)
  {
    SameTop(db.tariffs, db.drivers[d], db.orders[o], again.orders[o], t);
  }

  lemma SameGuards(db: Db, again: Db, bid: Bid)
    requires Consistent(db) && Biddable(db, again, bid.order) && CanAssign(db, bid)
    ensures CanAssign(again, bid)
  {
    SameTop(db.tariffs, db.drivers[bid.driver], db.orders[bid.order], again.orders[bid.order], bid.fare.tariff.id);
    StillFree(db.orders, again.orders, bid.order, bid.driver);
  }

  lemma SameBid(s: Desk, again: Desk, o: Id, d: Id, eligible: bool)
    requires again.config == s.config && again.db.now == s.db.now
    requires o in s.db.orders && o in again.db.orders && again.db.orders[o].byPark == s.db.orders[o].byPark
    requires OfferOpen(s, o, d) && OfferOpen(again, o, d) && CandidateFare(again.db, o, d) == CandidateFare(s.db, o, d)
    ensures AcceptBid(again, o, d, eligible) == AcceptBid(s, o, d, eligible)
  {
  }
}
