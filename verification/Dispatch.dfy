/** The dispatch service as a state machine, one step per service call over the tables, the offer store, the task queue
    and the timeout set: internal/dispatch/service.go, internal/redis/dispatch_queue.go,
    internal/repository/driver_search_repository.go. */
module Dispatch {
  import opened Prelude
  import opened Orders
  import opened TripPricing
  import opened Database
  import opened OfferStore

  // ----- configuration and tasks -----

  datatype Config = Config(radii: seq<int>, maxDrivers: int, offerTtl: int, lockTtl: int, confirmationTtl: int)

  predicate Normal(c: Config) {
    c.radii != [] && c.maxDrivers > 0 && c.offerTtl > 0 && c.lockTtl > 0 && c.confirmationTtl > 0
  }

  type NormalConfig = c: Config | Normal(c) witness Config([1000, 3000, 5000, 10000], 5, 15_000_000, 30_000_000, 60_000_000)

  /** Missing values are replaced by defaults; times are in microseconds. */
  function Normalize(c: Config): NormalConfig {
    Config(if c.radii == [] then [1000, 3000, 5000, 10000] else c.radii,
           if c.maxDrivers <= 0 then 5 else c.maxDrivers,
           if c.offerTtl <= 0 then 15_000_000 else c.offerTtl,
           if c.lockTtl <= 0 then 30_000_000 else c.lockTtl,
           if c.confirmationTtl <= 0 then 60_000_000 else c.confirmationTtl)
  }

  /** Attempt -1 marks the expiry of a price confirmation; the others search a growing radius. */
  datatype Task = Task(order: Id, attempt: int, queuedAt: Instant, exclude: seq<Id>, config: Option<Config>)

  function ConfigFor(service: NormalConfig, task: Task): NormalConfig {
    if task.config.None? then service else Normalize(task.config.value)
  }

  function RadiusFor(c: NormalConfig, attempt: int): Option<int> {
    if attempt < 0 || attempt >= |c.radii| then None else Some(c.radii[attempt])
  }

  // ----- lists of drivers -----

  /** The first occurrence of every id, in order. */
  function Deduplicated(ids: seq<Id>): seq<Id> {
    if ids == [] then []
    else
      var front, last := Deduplicated(ids[..|ids| - 1]), ids[|ids| - 1];
      if last in front then front else front + [last]
  }

  lemma {:induction false} DeduplicatedIsExact(ids: seq<Id>)
    ensures NoDuplicates(Deduplicated(ids))
    ensures forall d :: d in Deduplicated(ids) <==> d in ids
    ensures forall n :: 0 <= n <= |ids| ==> Deduplicated(ids[..n]) <= Deduplicated(ids)
  {
    if ids != [] {
      var front := ids[..|ids| - 1];
      DeduplicatedIsExact(front);
      assert ids == front + [ids[|ids| - 1]];
      forall n | 0 <= n <= |ids|
        ensures Deduplicated(ids[..n]) <= Deduplicated(ids)
      {
        if n < |ids| {
          assert front[..n] == ids[..n];
        } else {
          assert ids[..n] == ids;
        }
      }
    }
  }

  predicate Searchable(db: Db, row: Order, d: Id) {
    && d in db.drivers && db.drivers[d].status == Online && db.drivers[d].verified && db.drivers[d].park.Some?
    && (row.carClass.Some? ==> exists i :: i in db.tariffs && Matches(db.tariffs[i], db.drivers[d], row))
    && !HasActiveOrder(db.orders, d)
  }

  /** The drivers whose place and car fit, nearest first, are an input; the query filters them. */
  function Candidates(db: Db, row: Order, nearby: seq<Id>, exclude: seq<Id>): seq<Id> {
    if nearby == [] then []
    else
      var closer, d := Candidates(db, row, nearby[..|nearby| - 1], exclude), nearby[|nearby| - 1];
      if Searchable(db, row, d) && d !in exclude then closer + [d] else closer
  }

  function AtMost(ids: seq<Id>, limit: nat): seq<Id> {
    if |ids| <= limit then ids else ids[..limit]
  }

  function Nearest(db: Db, row: Order, nearby: seq<Id>, exclude: seq<Id>, limit: nat): seq<Id> {
    AtMost(Candidates(db, row, nearby, exclude), limit)
  }

  lemma {:induction false} CandidatesAreFit(db: Db, row: Order, nearby: seq<Id>, exclude: seq<Id>)
    ensures forall d :: d in Candidates(db, row, nearby, exclude) <==> d in nearby && d !in exclude && Searchable(db, row, d)
  {
    if nearby != [] {
      CandidatesAreFit(db, row, nearby[..|nearby| - 1], exclude);
      assert nearby == nearby[..|nearby| - 1] + [nearby[|nearby| - 1]];
    }
  }

  // ----- the nearest are found -----

  /** A driver the query admits: online, verified, with a park that has a tariff for the order's class and mode if it names
      a class, and without an order under way. */
  predicate Fit(db: Db, row: Order, d: Id) {
    && d in db.drivers && db.drivers[d].status == Online && db.drivers[d].verified && db.drivers[d].park.Some?
    && (row.carClass.Some? ==>
          exists i :: i in db.tariffs && db.tariffs[i].active && Some(db.tariffs[i].park) == db.drivers[d].park
                      && Some(db.tariffs[i].carClass) == row.carClass && db.tariffs[i].fareMode == row.fareMode)
    && (forall o :: o in db.orders && db.orders[o].driver == Some(d)
          ==> db.orders[o].status !in {DriverAssigned, DriverArriving, DriverWaiting, InProgress})
  }

  /** `at` are the places of those found among the drivers in range: in their order, each one fit, and whoever is fit and
      left out stands behind all of them, and the limit is reached. */
  predicate FoundAt(db: Db, row: Order, nearby: seq<Id>, exclude: seq<Id>, limit: nat, found: seq<Id>, at: seq<nat>) {
    && |at| == |found| <= limit
    && (forall i, j :: 0 <= i < j < |at| ==> at[i] < at[j])
    && (forall i :: 0 <= i < |at| ==>
          at[i] < |nearby| && found[i] == nearby[at[i]] && found[i] !in exclude && Fit(db, row, found[i]))
    && (forall q: nat :: q < |nearby| && nearby[q] !in exclude && Fit(db, row, nearby[q]) && q !in at ==>
          |found| == limit && forall i :: 0 <= i < |at| ==> at[i] < q)
  }

  /** The drivers found are the nearest that are fit and not excluded. */
  ghost predicate NearestFirst(db: Db, row: Order, nearby: seq<Id>, exclude: seq<Id>, limit: nat, found: seq<Id>) {
    exists at :: FoundAt(db, row, nearby, exclude, limit, found, at)
  }

  lemma SearchableIsFit(db: Db, row: Order, d: Id)
    ensures Searchable(db, row, d) <==> Fit(db, row, d)
  {
    if row.carClass.Some? && d in db.drivers {
      if Searchable(db, row, d) {
        var i :| i in db.tariffs && Matches(db.tariffs[i], db.drivers[d], row);
        assert db.tariffs[i].active;
      }
      if i :| i in db.tariffs && db.tariffs[i].active && Some(db.tariffs[i].park) == db.drivers[d].park
              && Some(db.tariffs[i].carClass) == row.carClass && db.tariffs[i].fareMode == row.fareMode {
        assert Matches(db.tariffs[i], db.drivers[d], row);
      }
    }
  }

  /** Where the candidates stand: in order, and nobody fit is passed over. */
  lemma {:induction false} CandidatesAt(db: Db, row: Order, nearby: seq<Id>, exclude: seq<Id>) returns (at: seq<nat>)
    ensures FoundAt(db, row, nearby, exclude, |nearby|, Candidates(db, row, nearby, exclude), at)
    ensures NobodyPassed(db, row, nearby, exclude, at)
  {
    if nearby == [] {
      at := [];
    } else {
      var last := |nearby| - 1;
      at := CandidatesAt(db, row, nearby[..last], exclude);
      at := OneMoreAt(db, row, nearby, exclude, at);
    }
  }

  /** Whoever is fit and not excluded stands at one of these places. */
  predicate NobodyPassed(db: Db, row: Order, nearby: seq<Id>, exclude: seq<Id>, at: seq<nat>) {
    forall q: nat :: q < |nearby| && nearby[q] !in exclude && Fit(db, row, nearby[q]) ==> q in at
  }

  lemma OneMoreAt(db: Db, row: Order, nearby: seq<Id>, exclude: seq<Id>, before: seq<nat>) returns (at: seq<nat>)
    requires nearby != []
    requires var front := nearby[..|nearby| - 1];
             && FoundAt(db, row, front, exclude, |front|, Candidates(db, row, front, exclude), before)
             && NobodyPassed(db, row, front, exclude, before)
    ensures FoundAt(db, row, nearby, exclude, |nearby|, Candidates(db, row, nearby, exclude), at)
    ensures NobodyPassed(db, row, nearby, exclude, at)
  {
    var last := |nearby| - 1;
    var found := Candidates(db, row, nearby[..last], exclude);
    SearchableIsFit(db, row, nearby[last]);
    if Searchable(db, row, nearby[last]) && nearby[last] !in exclude {
      at := before + [last];
      LastIsFound(db, row, nearby, exclude, found, before);
    } else {
      at := before;
      LastIsPassed(db, row, nearby, exclude, found, before);
    }
  }

  lemma LastIsFound(db: Db, row: Order, nearby: seq<Id>, exclude: seq<Id>, found: seq<Id>, at: seq<nat>)
    requires nearby != [] && FoundAt(db, row, nearby[..|nearby| - 1], exclude, |nearby| - 1, found, at)
    requires NobodyPassed(db, row, nearby[..|nearby| - 1], exclude, at)
    requires Fit(db, row, nearby[|nearby| - 1]) && nearby[|nearby| - 1] !in exclude
    ensures NobodyPassed(db, row, nearby, exclude, at + [|nearby| - 1])
    ensures FoundAt(db, row, nearby, exclude, |nearby|, found + [nearby[|nearby| - 1]], at + [|nearby| - 1])
  {
    forall q: nat | q < |nearby| && nearby[q] !in exclude && Fit(db, row, nearby[q])
      ensures q in at + [|nearby| - 1]
    {
      assert q < |nearby| - 1 ==> nearby[..|nearby| - 1][q] == nearby[q];
    }
  }

  lemma LastIsPassed(db: Db, row: Order, nearby: seq<Id>, exclude: seq<Id>, found: seq<Id>, at: seq<nat>)
    requires nearby != [] && FoundAt(db, row, nearby[..|nearby| - 1], exclude, |nearby| - 1, found, at)
    requires NobodyPassed(db, row, nearby[..|nearby| - 1], exclude, at)
    requires !(Fit(db, row, nearby[|nearby| - 1]) && nearby[|nearby| - 1] !in exclude)
    ensures NobodyPassed(db, row, nearby, exclude, at) && FoundAt(db, row, nearby, exclude, |nearby|, found, at)
  {
    forall q: nat | q < |nearby| && nearby[q] !in exclude && Fit(db, row, nearby[q])
      ensures q in at
    {
      assert q < |nearby| - 1 ==> nearby[..|nearby| - 1][q] == nearby[q];
    }
  }

  lemma NearestAreFound(db: Db, row: Order, nearby: seq<Id>, exclude: seq<Id>, limit: nat)
    ensures NearestFirst(db, row, nearby, exclude, limit, Nearest(db, row, nearby, exclude, limit))
  {
    var at := CandidatesAt(db, row, nearby, exclude);
    var all, found := Candidates(db, row, nearby, exclude), Nearest(db, row, nearby, exclude, limit);
    var kept := at[..|found|];
    forall q: nat | q < |nearby| && nearby[q] !in exclude && Fit(db, row, nearby[q]) && q !in kept
      ensures |found| == limit && forall i :: 0 <= i < |kept| ==> kept[i] < q
    {
      assert q in at;
      var j :| 0 <= j < |at| && at[j] == q;
      assert j >= |kept|;
    }
    assert FoundAt(db, row, nearby, exclude, limit, found, kept);
  }

  // ----- state -----

  /** A score of the timeout set: whole milliseconds, what is left of them cut off. */
  type Score = nat

  function Milli(t: Instant): Score {
    t / 1000
  }

  datatype Desk = Desk(db: Db, keys: Keys, queue: seq<Task>, timeouts: map<Task, Score>, config: NormalConfig)

  function Publish(s: Desk, task: Task): Desk {
    s.(queue := s.queue + [task])
  }

  function Schedule(s: Desk, task: Task, after: nat): Desk {
    s.(timeouts := s.timeouts[task := Milli(s.db.now + after)])
  }

  // ----- offering -----

  function OfferTo(keys: Keys, now: Instant, o: Id, attempt: int, radius: int, d: Id, c: NormalConfig): Keys {
    var existing := Find(keys, now, o, d);
    if existing.Some? && now < existing.value.expiresAt then keys
    else Save(keys, now, Offer(o, d, attempt, radius, now + c.offerTtl, now, c.lockTtl / 1_000_000), c.offerTtl)
  }

  function OfferAll(keys: Keys, now: Instant, o: Id, attempt: int, radius: int, drivers: seq<Id>, c: NormalConfig): Keys {
    if drivers == [] then keys
    else
      OfferTo(OfferAll(keys, now, o, attempt, radius, drivers[..|drivers| - 1], c),
              now, o, attempt, radius, drivers[|drivers| - 1], c)
  }

  function Listed(s: Desk, task: Task): Task
    requires task.order in s.db.orders
  {
    task.(exclude := Deduplicated(task.exclude + s.db.orders[task.order].declined))
  }

  function Found(s: Desk, task: Task, nearby: seq<Id>): seq<Id>
    requires task.order in s.db.orders
  {
    Nearest(s.db, s.db.orders[task.order], nearby, Listed(s, task).exclude, ConfigFor(s.config, task).maxDrivers)
  }

  /** No radius is left: none for this attempt, or nobody found and none for the next. */
  predicate Exhausted(s: Desk, task: Task, nearby: seq<Id>)
    requires task.order in s.db.orders
  {
    var c := ConfigFor(s.config, task);
    RadiusFor(c, task.attempt).None? || (Found(s, task, nearby) == [] && RadiusFor(c, task.attempt + 1).None?)
  }

  /** Offers the order to the drivers found, or waits for the wider radius, or gives the order up. */
  function Search(s: Desk, task: Task, nearby: seq<Id>): Desk
    requires task.order in s.db.orders
  {
    if Exhausted(s, task, nearby) then s.(db := GiveUp(s.db, task.order))
    else
      var c := ConfigFor(s.config, task);
      var radius := RadiusFor(c, task.attempt).value;
      var offered := OfferAll(s.keys, s.db.now, task.order, task.attempt, radius, Found(s, task, nearby), c);
      Schedule(s.(keys := offered), Listed(s, task), c.offerTtl)
  }

  /** Statuses in which a task of the order finds nothing to do. */
  predicate Settled(status: OrderStatus) {
    Terminal(status) || status == DriverAssigned
  }

  function ProcessOne(s: Desk, task: Task, nearby: seq<Id>): Desk {
    if task.order !in s.db.orders || Settled(s.db.orders[task.order].status) then s
    else if s.db.orders[task.order].status == Searching then Search(s, task, nearby)
    else if CanStartSearch(s.db, task.order) then Search(s.(db := StartSearch(s.db, task.order)), task, nearby)
    else s
  }

  /** Processing reports no error: the order is known, not settled, can search, and can be failed if it comes to that. */
  predicate Processable(s: Desk, task: Task, nearby: seq<Id>) {
    && task.order in s.db.orders && !Settled(s.db.orders[task.order].status)
    && (s.db.orders[task.order].status == Searching || CanStartSearch(s.db, task.order))
    && var started := if s.db.orders[task.order].status == Searching then s else s.(db := StartSearch(s.db, task.order));
       Exhausted(started, task, nearby) ==> CanGiveUp(started.db, task.order)
  }

  /** The dispatch worker takes the oldest task and processes it. */
  function Process(s: Desk, nearby: seq<Id>): Desk {
    if s.queue == [] then s else ProcessOne(s.(queue := s.queue[1..]), s.queue[0], nearby)
  }

  // ----- price confirmation -----

  function ReleasePrice(s: Desk, o: Id, d: Id): Desk {
    if CanRelease(s.db, o, d) then Publish(s.(db := Release(s.db, o, d)), Task(o, 0, s.db.now, [d], None)) else s
  }

  predicate Lapsed(row: Order, now: Instant) {
    row.confirmation == Some(Pending) && row.driver.Some? && row.expires.Some? && row.expires.value <= now
  }

  function ExpirePrice(s: Desk, o: Id): Desk {
    if o in s.db.orders && Lapsed(s.db.orders[o], s.db.now) then ReleasePrice(s, o, s.db.orders[o].driver.value) else s
  }

  /** Expiry fails on an unknown order and on a lapsed confirmation that can no longer be released. */
  predicate ExpireFails(s: Desk, o: Id) {
    o !in s.db.orders || (Lapsed(s.db.orders[o], s.db.now) && !CanRelease(s.db, o, s.db.orders[o].driver.value))
  }

  predicate CanDecline(s: Desk, o: Id, passenger: Id) {
    && o in s.db.orders
    && var row := s.db.orders[o];
       row.passenger == passenger && row.driver.Some? && row.confirmation == Some(Pending)
  }

  function Decline(s: Desk, o: Id, passenger: Id): Desk {
    if CanDecline(s, o, passenger) then ReleasePrice(s, o, s.db.orders[o].driver.value) else s
  }

  // ----- timeouts -----

  predicate IsDue(s: Desk, task: Task) {
    task in s.timeouts && s.timeouts[task] <= Milli(s.db.now)
  }

  predicate NotLater(timeouts: map<Task, Score>, a: Task, b: Task) {
    a in timeouts && b in timeouts && timeouts[a] <= timeouts[b]
  }

  function Retry(s: Desk, task: Task, offered: seq<Id>): Desk {
    var next := Task(task.order, task.attempt + 1, s.db.now, Deduplicated(task.exclude + offered), task.config);
    if RadiusFor(ConfigFor(s.config, task), next.attempt).None? then s.(db := GiveUp(s.db, task.order)) else Publish(s, next)
  }

  /** The members of a Redis set come back in some order, each once. */
  predicate ListsAll(ids: seq<Id>, members: set<Id>) {
    NoDuplicates(ids) && (forall d :: d in ids ==> d in members) && forall d :: d in members ==> d in ids
  }

  /** A confirmation task goes when its expiry is handled, also when the reservation has not lapsed yet. */
  function Handle(s: Desk, task: Task, offered: seq<Id>): Desk {
    if task.attempt == -1 then
      if ExpireFails(s, task.order) then s
      else
        var released := ExpirePrice(s, task.order);
        released.(timeouts := released.timeouts - {task})
    else if task.order !in s.db.orders then s
    else if s.db.orders[task.order].status != Searching then s.(timeouts := s.timeouts - {task})
    else Retry(s.(keys := Clear(s.keys, s.db.now, task.order), timeouts := s.timeouts - {task}), task, offered)
  }

  /** Handling reports no error. */
  predicate HandlesWell(s: Desk, task: Task) {
    if task.attempt == -1 then !ExpireFails(s, task.order)
    else
      var exhausted := RadiusFor(ConfigFor(s.config, task), task.attempt + 1).None?;
      task.order in s.db.orders
      && (s.db.orders[task.order].status == Searching && exhausted ==> CanGiveUp(s.db, task.order))
  }

  /** The worker handles due tasks; `offered` is the order's driver set as Redis lists it. */
  function Timeout(s: Desk, task: Task, offered: seq<Id>): Desk {
    if !IsDue(s, task) || !ListsAll(offered, Members(s.keys.byOrder, s.db.now, task.order)) then s
    else Handle(s, task, offered)
  }

  // ----- offers answered -----

  predicate OfferOpen(s: Desk, o: Id, d: Id) {
    var offer := Find(s.keys, s.db.now, o, d);
    offer.Some? && s.db.now <= offer.value.expiresAt
  }

  /** The bid of an accepting driver, when his fare can be computed. */
  ghost function AcceptBid(s: Desk, o: Id, d: Id, eligible: bool): Option<Bid> {
    if o !in s.db.orders || !OfferOpen(s, o, d) || CandidateFare(s.db, o, d).None? then None
    else
      var fare := CandidateFare(s.db, o, d).value;
      var price := TripPrice(fare.tariff.rates, fare.route.distance, fare.route.duration);
      if price.Err? || price.value <= 0 then None
      else Some(Bid(o, d, fare, price.value, s.db.now + s.config.confirmationTtl, !s.db.orders[o].byPark, eligible))
  }

  ghost predicate CanAccept(s: Desk, o: Id, d: Id, eligible: bool) {
    var bid := AcceptBid(s, o, d, eligible);
    bid.Some? && CanAssign(s.db, bid.value)
  }

  /** The driver takes the order, the passenger is asked for the price, and the other offers go. */
  ghost function Taken(s: Desk, bid: Bid): Desk {
    if !CanAssign(s.db, bid) then s
    else
      var task := Task(bid.order, -1, s.db.now, [bid.driver], None);
      var asked := if bid.needsConfirmation then Schedule(s, task, s.config.confirmationTtl) else s;
      asked.(db := Apply(Assign(s.db, bid), MarkBusy(bid.driver)), keys := Clear(s.keys, s.db.now, bid.order))
  }

  ghost function Accept(s: Desk, o: Id, d: Id, eligible: bool): Desk {
    var bid := AcceptBid(s, o, d, eligible);
    if bid.Some? then Taken(s, bid.value) else s
  }

  function Reject(s: Desk, o: Id, d: Id): Desk {
    if OfferOpen(s, o, d) then s.(keys := Remove(s.keys, s.db.now, o, d)) else s
  }

  // ----- the machine -----

  datatype Step =
    | Enqueue(order: Id, taskConfig: Option<Config>)
    | ProcessTask(nearby: seq<Id>)
    | HandleTimeout(task: Task, offered: seq<Id>)
    | AcceptOffer(order: Id, driver: Id, eligible: bool)
    | RejectOffer(order: Id, driver: Id)
    | ConfirmOrderPrice(order: Id, passenger: Id)
    | DeclineOrderPrice(order: Id, passenger: Id)
    | ExpireOrderPrice(order: Id)
    | StopDispatch(order: Id)
    | Outside(action: Action)

  /** What happens outside the dispatch service: assignments, confirmations, releases and searches are its own. */
  predicate Foreign(a: Action) {
    !a.Reserve? && !a.Confirm? && !a.Free? && !a.BeginSearch? && !a.Fail?
  }

  ghost function Do(s: Desk, step: Step): Desk {
    match step
    case Enqueue(o, config) =>
      if CanStartSearch(s.db, o) then Publish(s.(db := StartSearch(s.db, o)), Task(o, 0, s.db.now, [], config)) else s
    case ProcessTask(nearby) => Process(s, nearby)
    case HandleTimeout(task, offered) => Timeout(s, task, offered)
    case AcceptOffer(o, d, eligible) => Accept(s, o, d, eligible)
    case RejectOffer(o, d) => Reject(s, o, d)
    case ConfirmOrderPrice(o, passenger) => s.(db := ConfirmPrice(s.db, o, passenger))
    case DeclineOrderPrice(o, passenger) => Decline(s, o, passenger)
    case ExpireOrderPrice(o) => ExpirePrice(s, o)
    case StopDispatch(o) => s.(keys := Clear(s.keys, s.db.now, o))
    case Outside(a) => if Foreign(a) then s.(db := Apply(s.db, a)) else s
  }

  ghost function DoAll(s: Desk, steps: seq<Step>): Desk
    decreases |steps|
  {
    if steps == [] then s else DoAll(Do(s, steps[0]), steps[1..])
  }

  lemma {:induction false} DoOneMore(s: Desk, steps: seq<Step>, last: Step)
    ensures DoAll(s, steps + [last]) == Do(DoAll(s, steps), last)
    decreases |steps|
  {
    if steps == [] {
      assert [last][1..] == [];
      assert steps + [last] == [last];
      assert DoAll(Do(s, last), []) == Do(s, last);
    } else {
      assert (steps + [last])[0] == steps[0] && (steps + [last])[1..] == steps[1..] + [last];
      DoOneMore(Do(s, steps[0]), steps[1..], last);
    }
  }
}
