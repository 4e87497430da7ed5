/** Any number of AcceptOffer calls running at once, one database or Redis command at a time, with accept locks
    that may expire under their holders: AcceptOffer of internal/dispatch/service.go, internal/redis/lock.go. */
module AcceptRace {
  import opened Prelude
  import opened TripPricing
  import opened Orders
  import opened Database
  import opened Edges
  import opened Reservations
  import opened Prices

  // ----- the lock -----

  datatype Lock = Lock(token: nat, until: Instant)

  /** An expired key is no key. */
  predicate Locked(locks: map<Id, Lock>, now: Instant, key: Id) {
    key in locks && now < locks[key].until
  }

  function SetIfAbsent(locks: map<Id, Lock>, now: Instant, key: Id, token: nat, ttl: nat): map<Id, Lock> {
    if Locked(locks, now, key) then locks else locks[key := Lock(token, now + ttl)]
  }

  function CompareAndDelete(locks: map<Id, Lock>, now: Instant, key: Id, token: nat): map<Id, Lock> {
    if Locked(locks, now, key) && locks[key].token == token then locks - {key} else locks
  }

  /** Whoever finds no live lock has it from now until its lifetime is over; a live one is left alone; other keys too. */
  lemma AcquiringLocks(locks: map<Id, Lock>, now: Instant, key: Id, token: nat, ttl: nat, later: Instant, other: Id)
    requires now <= later
    ensures var after := SetIfAbsent(locks, now, key, token, ttl);
            && (other != key ==> (other in after <==> other in locks) && (other in locks ==> after[other] == locks[other]))
            && (if Locked(locks, now, key) then after == locks
                else (Locked(after, later, key) <==> later < now + ttl) && key in after && after[key].token == token)
  {
  }

  class LockManager {
    var now: Instant
    var locks: map<Id, Lock>

    constructor ()
      ensures locks == map[]
    {
      now, locks := 0, map[];
    }

    method Acquire(key: Id, token: nat, ttl: nat) returns (acquired: bool)
      modifies this`locks
      ensures locks == SetIfAbsent(old(locks), now, key, token, ttl)
      ensures acquired <==> !Locked(old(locks), now, key)
    {
      if key in locks && now < locks[key].until {
        return false;
      }
      locks := locks[key := Lock(token, now + ttl)];
      return true;
    }

    method Release(key: Id, token: nat)
      modifies this`locks
      ensures locks == CompareAndDelete(old(locks), now, key, token)
    {
      if key in locks && now < locks[key].until && locks[key].token == token {
        locks := locks - {key};
      }
    }
  }

  // ----- the calls -----

  /** Where a call stands and what it has read so far. */
  datatype Stage =
    | Starting
    | Entered
    | Priced(fare: Fare, price: int)
    | Bidding(fare: Fare, price: int, needsConfirmation: bool)
    | Won
    | Leaving
    | Finished

  datatype Call = Call(order: Id, driver: Id, token: Option<nat>, acceptedAt: Instant, stage: Stage)

  datatype World = World(db: Db, locks: map<Id, Lock>, calls: map<nat, Call>)

  /** One command of one call, or one transaction of the rest of the system. */
  datatype Step =
    | Begin(p: nat, order: Id, driver: Id)
    | Acquire(p: nat, token: nat, ttl: nat)
    | ReadFare(p: nat)
    | ReadOrder(p: nat)
    | Bid(p: nat, window: nat, eligible: bool)
    | SetBusy(p: nat)
    | Unlock(p: nat)
    | Elsewhere(action: Action)

  function At(w: World, p: nat, stage: Stage): World
    requires p in w.calls
  {
    w.(calls := w.calls[p := w.calls[p].(stage := stage)])
  }

  /** The bid a call makes when it is ready to. */
  function BidOf(c: Call, window: nat, eligible: bool): Database.Bid
    requires c.stage.Bidding?
  {
    Database.Bid(c.order, c.driver, c.stage.fare, c.stage.price, c.acceptedAt + window, c.stage.needsConfirmation, eligible)
  }

  ghost function Advance(w: World, s: Step): World {
    if s.Elsewhere? then
      if s.action.Reserve? then w else w.(db := Apply(w.db, s.action))
    else if s.Begin? then
      if s.p in w.calls then w else w.(calls := w.calls[s.p := Call(s.order, s.driver, None, 0, Starting)])
    else if s.p !in w.calls then w
    else
      var c := w.calls[s.p];
      match s
      case Acquire(p, token, ttl) =>
        if !c.stage.Starting? then w
        else if Locked(w.locks, w.db.now, c.order) then At(w, p, Finished)
        else World(w.db, SetIfAbsent(w.locks, w.db.now, c.order, token, ttl),
                   w.calls[p := c.(token := Some(token), acceptedAt := w.db.now, stage := Entered)])
      case ReadFare(p) =>
        if !c.stage.Entered? then w
        else
          var fare := CandidateFare(w.db, c.order, c.driver);
          if fare.None? then At(w, p, Leaving)
          else
            var price := TripPrice(fare.value.tariff.rates, fare.value.route.distance, fare.value.route.duration);
            At(w, p, if price.Ok? && price.value > 0 then Priced(fare.value, price.value) else Leaving)
      case ReadOrder(p) =>
        if !c.stage.Priced? then w
        else if c.order !in w.db.orders then At(w, p, Leaving)
        else At(w, p, Bidding(c.stage.fare, c.stage.price, !w.db.orders[c.order].byPark))
      case Bid(p, window, eligible) =>
        if !c.stage.Bidding? then w
        else
          var b := BidOf(c, window, eligible);
          At(w, p, if CanAssign(w.db, b) then Won else Leaving).(db := Assign(w.db, b))
      case SetBusy(p) =>
        if !c.stage.Won? then w
        else At(w, p, Leaving).(db := Apply(w.db, MarkBusy(c.driver)))
      case Unlock(p) =>
        if !c.stage.Leaving? || c.token.None? then w
        else At(w, p, Finished).(locks := CompareAndDelete(w.locks, w.db.now, c.order, c.token.value))
  }

  ghost function Execute(w: World, steps: seq<Step>): World
    decreases |steps|
  {
    if steps == [] then w else Execute(Advance(w, steps[0]), steps[1..])
  }

  // ----- prices -----

  predicate CallOk(db: Db, c: Call) {
    c.stage.Priced? || c.stage.Bidding? ==> FareRead(db, c.stage.fare, c.stage.price)
  }

  predicate CallsOk(db: Db, calls: map<nat, Call>) {
    forall p :: p in calls ==> CallOk(db, calls[p])
  }

  predicate Safe(w: World) {
    Consistent(w.db) && AllPriced(w.db.orders) && CallsOk(w.db, w.calls)
  }

  lemma RowComesBack(row: Order, busy: Order, b: Database.Bid)
    requires row.status == Searching && row.driver.None? && Blank(row)
    requires busy.history == row.history + [Reserved(b.driver, Some(b.expires))]
    requires busy.version == row.version + 1 && busy == Reserving(row, busy)
    ensures ReleasedRow(busy, b.driver) == row.(
              version := row.version + 2, declined := row.declined + [b.driver],
              history := row.history + [Reserved(b.driver, Some(b.expires))] + [Released(b.driver)])
  {
  }

  lemma DriverComesBack(drivers: map<Id, Driver>, d: Id)
    requires d in drivers && drivers[d].status == Online
    ensures WithStatus(WithStatus(drivers, d, {Online}, Busy), d, {Busy}, Online) == drivers
  {
  }

  /** A release undoes an acceptance: the driver's row and all other rows are as they were, and the order's row differs
      only by two versions, two events and the driver on its declined list. */
  lemma ReleaseUndoesAcceptance(db: Db, b: Database.Bid)
    requires Consistent(db) && CanAssign(db, b) && b.needsConfirmation && RowPriced(db.orders[b.order])
    ensures var row := db.orders[b.order];
            var after := Release(Apply(Assign(db, b), MarkBusy(b.driver)), b.order, b.driver);
            after == db.(orders := db.orders[b.order := row.(
              version := row.version + 2, declined := row.declined + [b.driver],
              history := row.history + [Reserved(b.driver, Some(b.expires))] + [Released(b.driver)])])
  {
    var busy := AssignedRow(db, b);
    RowComesBack(db.orders[b.order], busy, b);
    DriverComesBack(db.drivers, b.driver);
    assert db.orders[b.order := busy][b.order := ReleasedRow(busy, b.driver)] == db.orders[b.order := ReleasedRow(busy, b.driver)];
  }

  lemma ActionKeepsSafe(w: World, a: Action)
    requires Safe(w) && !a.Reserve?
    ensures Safe(w.(db := Apply(w.db, a)))
  {
    ApplyKeeps(w.db, a);
    forall o | o in Apply(w.db, a).orders
      ensures RowPriced(Apply(w.db, a).orders[o])
    {
      if o in w.db.orders {
        assert RowOk(w.db.orders[o]);
      }
      RowStaysPriced(w.db, a, o);
    }
    forall p | p in w.calls
      ensures CallOk(Apply(w.db, a), w.calls[p])
    {
      if w.calls[p].stage.Priced? || w.calls[p].stage.Bidding? {
        FareStaysRead(w.db, a, w.calls[p].stage.fare, w.calls[p].stage.price);
      }
    }
  }

  lemma BidKeepsSafe(w: World, b: Database.Bid)
    requires Safe(w) && FareRead(w.db, b.fare, b.price)
    ensures Safe(w.(db := Assign(w.db, b)))
  {
    AssignKeeps(w.db, b);
    if CanAssign(w.db, b) {
      AssignStoresThePricedTariff(w.db, b);
    }
    SameTariffsKeepCalls(w.db, Assign(w.db, b), w.calls);
  }

  lemma SameTariffsKeepCalls(db: Db, after: Db, calls: map<nat, Call>)
    requires CallsOk(db, calls) && after.tariffs == db.tariffs
    ensures CallsOk(after, calls)
  {
  }

  /** A call that goes on is in order when what it has read is. */
  lemma StageKeepsSafe(w: World, p: nat, stage: Stage)
    requires Safe(w) && p in w.calls && CallOk(w.db, w.calls[p].(stage := stage))
    ensures Safe(At(w, p, stage))
  {
  }

  lemma ReadFareKeepsSafe(w: World, p: nat)
    requires Safe(w) && p in w.calls && w.calls[p].stage.Entered?
    ensures Safe(Advance(w, ReadFare(p)))
  {
    var c := w.calls[p];
    var fare := CandidateFare(w.db, c.order, c.driver);
    StageKeepsSafe(w, p, Leaving);
    if fare.Some? {
      var price := TripPrice(fare.value.tariff.rates, fare.value.route.distance, fare.value.route.duration);
      if price.Ok? && price.value > 0 {
        FareIsRead(w.db, c.order, c.driver, price.value);
        StageKeepsSafe(w, p, Priced(fare.value, price.value));
      }
    }
  }

  lemma BidStepKeepsSafe(w: World, p: nat, window: nat, eligible: bool)
    requires Safe(w) && p in w.calls && w.calls[p].stage.Bidding?
    ensures Safe(Advance(w, Step.Bid(p, window, eligible)))
  {
    var b := BidOf(w.calls[p], window, eligible);
    BidKeepsSafe(w, b);
    WonOrLeavingKeepsSafe(w.(db := Assign(w.db, b)), p);
  }

  lemma WonOrLeavingKeepsSafe(w: World, p: nat)
    requires Safe(w) && p in w.calls
    ensures Safe(At(w, p, Won)) && Safe(At(w, p, Leaving))
  {
    StageKeepsSafe(w, p, Won);
    StageKeepsSafe(w, p, Leaving);
  }

  lemma BusyStepKeepsSafe(w: World, p: nat)
    requires Safe(w) && p in w.calls && w.calls[p].stage.Won?
    ensures Safe(Advance(w, SetBusy(p)))
  {
    ActionKeepsSafe(w, MarkBusy(w.calls[p].driver));
    StageKeepsSafe(w.(db := Apply(w.db, MarkBusy(w.calls[p].driver))), p, Leaving);
  }

  lemma OtherStepsKeepSafe(w: World, s: Step)
    requires Safe(w) && !s.Elsewhere? && !s.ReadFare? && !s.Bid? && !s.SetBusy?
    ensures Safe(Advance(w, s))
  {
  }

  lemma ElsewhereKeepsSafe(w: World, a: Action)
    requires Safe(w)
    ensures Safe(Advance(w, Elsewhere(a)))
  {
    if !a.Reserve? {
      ActionKeepsSafe(w, a);
    }
  }

  /** Every step of every interleaving keeps the tables consistent and the prices coherent. */
  lemma AdvanceKeepsSafe(w: World, s: Step)
    requires Safe(w)
    ensures Safe(Advance(w, s))
  {
    if s.Elsewhere? {
      ElsewhereKeepsSafe(w, s.action);
    } else if s.ReadFare? && s.p in w.calls && w.calls[s.p].stage.Entered? {
      ReadFareKeepsSafe(w, s.p);
    } else if s.Bid? && s.p in w.calls && w.calls[s.p].stage.Bidding? {
      BidStepKeepsSafe(w, s.p, s.window, s.eligible);
    } else if s.SetBusy? && s.p in w.calls && w.calls[s.p].stage.Won? {
      BusyStepKeepsSafe(w, s.p);
    } else if !s.ReadFare? && !s.Bid? && !s.SetBusy? {
      OtherStepsKeepSafe(w, s);
    }
  }

  lemma {:induction false} ExecuteKeepsSafe(w: World, steps: seq<Step>)
    requires Safe(w)
    ensures Safe(Execute(w, steps))
    decreases |steps|
  {
    if steps != [] {
      AdvanceKeepsSafe(w, steps[0]);
      ExecuteKeepsSafe(Advance(w, steps[0]), steps[1..]);
    }
  }

  /** Between two reservations of an order, the first driver was released. */
  predicate ReleasedBetween(history: seq<Event>) {
    forall i, j :: (0 <= i < j < |history| && history[i].Reserved? && history[j].Reserved?) ==>
      exists k :: i < k < j && history[k] == Released(history[i].driver)
  }

  const QUIET: World := World(EMPTY, map[], map[])

  /** In every interleaving, with any lock lifetimes: a driver never holds two active orders, an order that takes a
      second driver has released the first, and every row with a driver is priced by its own tariff snapshot. */
  lemma AcceptRaceIsSafe(steps: seq<Step>)
    ensures var db := Execute(QUIET, steps).db;
            && OneActiveOrder(db.orders)
            && AllPriced(db.orders)
            && forall o :: o in db.orders ==> ReleasedBetween(db.orders[o].history)
  {
    ExecuteKeepsSafe(QUIET, steps);
    var db := Execute(QUIET, steps).db;
    forall o | o in db.orders
      ensures ReleasedBetween(db.orders[o].history)
    {
      assert RowOk(db.orders[o]);
      var history := db.orders[o].history;
      forall i, j | 0 <= i < j < |history| && history[i].Reserved? && history[j].Reserved?
        ensures exists k :: i < k < j && history[k] == Released(history[i].driver)
      {
        OneDriverPerSearch(history, db.orders[o].passenger, i, j);
      }
    }
  }

  // ----- who is asked -----

  /** A call that is about to bid has read whether its order is a park's. */
  predicate KnowsWhom(db: Db, c: Call) {
    c.stage.Bidding? ==> c.order in db.orders && c.stage.needsConfirmation == !db.orders[c.order].byPark
  }

  ghost predicate Asks(w: World) {
    AllAsked(w.db.orders) && forall p :: p in w.calls ==> KnowsWhom(w.db, w.calls[p])
  }

  /** A database with the same orders for the same askers. */
  predicate SameAskers(db: Db, after: Db) {
    forall o :: o in db.orders ==> o in after.orders && after.orders[o].byPark == db.orders[o].byPark
  }

  lemma ActionKeepsAsks(w: World, a: Action)
    requires Asks(w) && !a.Reserve?
    ensures Asks(w.(db := Apply(w.db, a)))
  {
    forall o | o in Apply(w.db, a).orders
      ensures RowAsked(Apply(w.db, a).orders[o])
    {
      ActionStaysAsked(w.db, a, o);
    }
    forall o | o in w.db.orders
      ensures o in Apply(w.db, a).orders && Apply(w.db, a).orders[o].byPark == w.db.orders[o].byPark
    {
      ActionEdge(w.db, a, o);
      ActionStaysAsked(w.db, a, o);
    }
  }

  lemma StageKeepsAsks(w: World, p: nat, stage: Stage)
    requires Asks(w) && p in w.calls && KnowsWhom(w.db, w.calls[p].(stage := stage))
    ensures Asks(At(w, p, stage))
  {
  }

  lemma BidKeepsAsks(w: World, p: nat, window: nat, eligible: bool)
    requires Asks(w) && p in w.calls && w.calls[p].stage.Bidding?
    ensures Asks(Advance(w, Step.Bid(p, window, eligible)))
  {
    var b := BidOf(w.calls[p], window, eligible);
    AssignStaysAsked(w.db, b);
    var taken := w.(db := Assign(w.db, b));
    assert SameAskers(w.db, taken.db);
    StageKeepsAsks(taken, p, Won);
    StageKeepsAsks(taken, p, Leaving);
  }

  lemma OtherStepsKeepAsks(w: World, s: Step)
    requires Asks(w) && !s.Elsewhere? && !s.Bid? && !s.SetBusy?
    ensures Asks(Advance(w, s))
  {
  }

  lemma BusyKeepsAsks(w: World, p: nat)
    requires Asks(w)
    ensures Asks(Advance(w, SetBusy(p)))
  {
    if p in w.calls && w.calls[p].stage.Won? {
      ActionKeepsAsks(w, MarkBusy(w.calls[p].driver));
      StageKeepsAsks(w.(db := Apply(w.db, MarkBusy(w.calls[p].driver))), p, Leaving);
    }
  }

  lemma AdvanceKeepsAsks(w: World, s: Step)
    requires Asks(w)
    ensures Asks(Advance(w, s))
  {
    if s.Elsewhere? {
      if !s.action.Reserve? {
        ActionKeepsAsks(w, s.action);
      }
    } else if s.Bid? {
      if s.p in w.calls && w.calls[s.p].stage.Bidding? {
        BidKeepsAsks(w, s.p, s.window, s.eligible);
      }
    } else if s.SetBusy? {
      BusyKeepsAsks(w, s.p);
    } else {
      OtherStepsKeepAsks(w, s);
    }
  }

  lemma {:induction false} ExecuteKeepsAsks(w: World, steps: seq<Step>)
    requires Asks(w)
    ensures Asks(Execute(w, steps))
    decreases |steps|
  {
    if steps != [] {
      AdvanceKeepsAsks(w, steps[0]);
      ExecuteKeepsAsks(Advance(w, steps[0]), steps[1..]);
    }
  }

  /** In every interleaving a passenger is asked for the price of each reservation of his order, and of a park's order
      nobody is. */
  lemma PassengersAreAsked(steps: seq<Step>)
    ensures AllAsked(Execute(QUIET, steps).db.orders)
  {
    ExecuteKeepsAsks(QUIET, steps);
  }

  // ----- who deletes which lock -----

  /** The call is between its acquisition and its release, and the lock of its order still carries its token. */
  predicate Holds(w: World, p: nat) {
    && p in w.calls && !w.calls[p].stage.Starting? && !w.calls[p].stage.Finished?
    && Locked(w.locks, w.db.now, w.calls[p].order) && Some(w.locks[w.calls[p].order].token) == w.calls[p].token
  }

  /** No two calls drew the same token. */
  predicate TokensDiffer(calls: map<nat, Call>) {
    forall p, q :: p in calls && q in calls && p != q && calls[p].token.Some? ==> calls[p].token != calls[q].token
  }

  /** The draws of a run never repeat a token drawn before. */
  ghost predicate FreshDraws(w: World, steps: seq<Step>)
    decreases |steps|
  {
    steps == [] ||
    (&& (steps[0].Acquire? ==> forall q :: q in w.calls ==> w.calls[q].token != Some(steps[0].token))
     && FreshDraws(Advance(w, steps[0]), steps[1..]))
  }

  /** A lock is lost by its own holder's release or by time, and by nothing else: not even by the late release of a
      call whose own lock expired. */
  lemma StepSparesLock(w: World, s: Step, q: nat)
    requires TokensDiffer(w.calls) && Holds(w, q)
    ensures Holds(Advance(w, s), q) || s == Unlock(q)
         || Advance(w, s).db.now >= w.locks[w.calls[q].order].until
  {
    if s.Unlock? && s.p != q {
      UnlockSparesOthers(w, s.p, q);
    }
  }

  lemma UnlockSparesOthers(w: World, p: nat, q: nat)
    requires TokensDiffer(w.calls) && Holds(w, q) && p != q
    ensures Holds(Advance(w, Unlock(p)), q)
  {
  }

  lemma StepKeepsTokens(w: World, s: Step)
    requires TokensDiffer(w.calls)
    requires s.Acquire? ==> forall q :: q in w.calls ==> w.calls[q].token != Some(s.token)
    ensures TokensDiffer(Advance(w, s).calls)
  {
  }

  /** Over a whole run of fresh draws: from the moment a call holds its lock, it holds it until it releases it itself
      or the lock's time is over. */
  lemma {:induction false} LockIsKept(w: World, steps: seq<Step>, q: nat)
    requires TokensDiffer(w.calls) && FreshDraws(w, steps)
    requires Holds(w, q) && Unlock(q) !in steps
    ensures var later := Execute(w, steps);
            Holds(later, q) || later.db.now >= w.locks[w.calls[q].order].until
    decreases |steps|
  {
    if steps != [] {
      var next := Advance(w, steps[0]);
      StepSparesLock(w, steps[0], q);
      StepKeepsTokens(w, steps[0]);
      if Holds(next, q) {
        LockIsKept(next, steps[1..], q);
        SameLock(w, steps[0], q);
      } else {
        ClockOnlyAdvances(next, steps[1..]);
      }
    }
  }

  lemma SameLock(w: World, s: Step, q: nat)
    requires TokensDiffer(w.calls) && Holds(w, q) && Holds(Advance(w, s), q)
    ensures Advance(w, s).calls[q].order == w.calls[q].order
    ensures Advance(w, s).locks[w.calls[q].order] == w.locks[w.calls[q].order]
  {
  }

  lemma {:induction false} ClockOnlyAdvances(w: World, steps: seq<Step>)
    ensures Execute(w, steps).db.now >= w.db.now
    decreases |steps|
  {
    if steps != [] {
      assert Advance(w, steps[0]).db.now >= w.db.now;
      ClockOnlyAdvances(Advance(w, steps[0]), steps[1..]);
    }
  }

  /** The release of a call whose own lock has expired deletes the successor's lock exactly when both drew the same
      token; tokens are clock readings, so they may. */
  lemma LateReleaseDeletesIffTokensEqual(w: World, p: nat, q: nat)
    requires p in w.calls && w.calls[p].stage.Leaving? && w.calls[p].token.Some? && p != q && Holds(w, q)
    requires w.calls[p].order == w.calls[q].order
    ensures !Holds(Advance(w, Unlock(p)), q) <==> w.calls[p].token == w.calls[q].token
  {
  }

  /** Two calls may be inside their critical sections at once: safety rests on the guarded update, not on the lock. */
  lemma SectionsMayOverlap(w: World, p: nat, q: nat, token: nat, ttl: nat)
    requires Holds(w, p) && w.calls[p].stage.Entered?
    requires q in w.calls && q != p && w.calls[q].stage.Starting? && w.calls[q].order == w.calls[p].order
    ensures var late := Advance(w, Elsewhere(Tick(w.locks[w.calls[p].order].until)));
            var both := Advance(late, Acquire(q, token, ttl));
            p in both.calls && q in both.calls && both.calls[p].stage == Entered == both.calls[q].stage
  {
  }
}
