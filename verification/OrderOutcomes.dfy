/** When each transaction on orders and drivers goes through, and what it leaves behind, told in the columns alone:
    internal/repository/dispatch_order_repository.go, driver_mobile_repository.go, driver_state_repository.go and the
    cancellation of passenger_order_repository.go. */
module OrderOutcomes {
  import opened Prelude
  import opened Orders
  import opened Database
  import opened Edges
  import opened Reservations

  // ----- statuses -----

  const TRANSITIONS: set<(OrderStatus, OrderStatus)> := {
    (Created, Searching), (Searching, DriverAssigned), (Searching, Cancelled), (Searching, Failed),
    (DriverAssigned, DriverArriving), (DriverAssigned, Cancelled), (DriverArriving, DriverWaiting), (DriverArriving, Cancelled),
    (DriverWaiting, InProgress), (DriverWaiting, Cancelled), (InProgress, Completed)}

  /** The table of transitions; a status is final when only itself follows, and occupies the driver between his
      assignment and the end. */
  lemma StatusTable(from: OrderStatus, to: OrderStatus)
    ensures CanTransition(from, to) <==> from == to || (from, to) in TRANSITIONS
    ensures Terminal(from) <==> forall next: OrderStatus :: (from, next) !in TRANSITIONS
    ensures Active(from) <==> from in {DriverAssigned, DriverArriving, DriverWaiting, InProgress}
  {
    if !Terminal(from) {
      assert (from, if from == Created then Searching else if from == Searching then Failed
                    else if from == DriverAssigned then DriverArriving else if from == DriverArriving then DriverWaiting
                    else if from == DriverWaiting then InProgress else Completed) in TRANSITIONS;
    }
  }

  // ----- searching -----

  lemma BeginSearchOutcome(db: Db, o: Id)
    ensures Apply(db, BeginSearch(o)) ==
            if o in db.orders && db.orders[o].status in {Created, Searching} && db.orders[o].driver == None then
              var row := db.orders[o];
              db.(orders := db.orders[o := row.(status := Searching, version := row.version + 1, history := row.history + [SearchStarted])])
            else db
  {
  }

  lemma FailOutcome(db: Db, o: Id)
    ensures Apply(db, Fail(o)) ==
            if o in db.orders && db.orders[o].status == Searching && db.orders[o].driver == None then
              var row := db.orders[o];
              db.(orders := db.orders[o := row.(status := Failed, version := row.version + 1, history := row.history + [GaveUp])])
            else db
  {
  }

  // ----- taking an order -----

  predicate Suits(t: Tariff, d: Driver, row: Order) {
    t.active && d.park == Some(t.park) && row.carClass == Some(t.carClass) && row.fareMode == t.fareMode
  }

  /** Of the tariffs that suit the driver and the order, this one has the highest priority, and among equals the highest
      id. */
  predicate Best(tariffs: map<Id, Tariff>, d: Driver, row: Order, i: Id) {
    && i in tariffs && Suits(tariffs[i], d, row)
    && forall j :: j in tariffs && Suits(tariffs[j], d, row) ==>
         tariffs[j].priority < tariffs[i].priority || (tariffs[j].priority == tariffs[i].priority && j <= i)
  }

  lemma BestIsTop(tariffs: map<Id, Tariff>, d: Driver, row: Order, i: Id)
    requires KeyedById(tariffs)
    ensures Best(tariffs, d, row, i) <==> IsTop(tariffs, d, row, i)
  {
    if IsTop(tariffs, d, row, i) {
      forall j | j in tariffs && Suits(tariffs[j], d, row)
        ensures tariffs[j].priority < tariffs[i].priority || (tariffs[j].priority == tariffs[i].priority && j <= i)
      {
        assert Matches(tariffs[j], d, row);
      }
    }
    if Best(tariffs, d, row, i) {
      forall j | j in tariffs && Matches(tariffs[j], d, row)
        ensures !Higher(tariffs[j], tariffs[i])
      {
        assert Suits(tariffs[j], d, row);
      }
    }
  }

  /** The order searches and the driver may work on it now. */
  predicate Available(db: Db, o: Id, d: Id) {
    && o in db.orders && d in db.drivers
    && db.orders[o].status == Searching && db.orders[o].driver == None
    && db.drivers[d].status == Online && db.drivers[d].verified
    && forall p :: p in db.orders && db.orders[p].driver == Some(d)
         ==> db.orders[p].status !in {DriverAssigned, DriverArriving, DriverWaiting, InProgress}
  }

  /** The row of an order that this driver took at this price: what he is, what it costs, and whether the passenger is
      asked. */
  function TakenRow(before: Order, d: Id, driver: Driver, t: Tariff, price: int, asked: Option<Instant>): Order {
    before.(status := DriverAssigned, driver := Some(d), park := driver.park, assignedTariff := Some(t.id), snapshot := Some(t),
            confirmation := Some(if asked.Some? then Pending else Confirmed), proposed := Some(price), expires := asked,
            agreed := (if asked.None? && before.fareMode == FixedQuote then Some(price) else None),
            version := before.version + 1, history := before.history + [Reserved(d, asked)])
  }

  /** An assignment goes through exactly when the order and the driver are available, location, car and park allow it, the
      route is still the one priced, and the tariff priced is still the best and unedited. */
  lemma ReserveOutcome(db: Db, b: Bid)
    requires KeyedById(db.tariffs)
    ensures Apply(db, Reserve(b)) ==
            if Available(db, b.order, b.driver) && b.eligible && db.orders[b.order].route == Some(b.fare.route) && b.price > 0
               && Best(db.tariffs, db.drivers[b.driver], db.orders[b.order], b.fare.tariff.id)
               && db.tariffs[b.fare.tariff.id].updatedAt == b.fare.tariff.updatedAt then
              db.(orders := db.orders[b.order := TakenRow(db.orders[b.order], b.driver, db.drivers[b.driver],
                                                          db.tariffs[b.fare.tariff.id], b.price,
                                                          if b.needsConfirmation then Some(b.expires) else None)])
            else db
  {
    if b.order in db.orders && b.driver in db.drivers {
      AvailableIff(db, b.order, b.driver);
      BestIsTop(db.tariffs, db.drivers[b.driver], db.orders[b.order], b.fare.tariff.id);
      if CanAssign(db, b) {
        AssignedIsTaken(db, b);
      }
    }
  }

  lemma AvailableIff(db: Db, o: Id, d: Id)
    requires o in db.orders && d in db.drivers
    ensures Available(db, o, d) <==> db.orders[o].status == Searching && db.orders[o].driver.None?
                                     && db.drivers[d].status == Online && db.drivers[d].verified && !HasActiveOrder(db.orders, d)
  {
  }

  lemma AssignedIsTaken(db: Db, b: Bid)
    requires KeyedById(db.tariffs) && CanAssign(db, b)
    ensures AssignedRow(db, b) == TakenRow(db.orders[b.order], b.driver, db.drivers[b.driver], db.tariffs[b.fare.tariff.id],
                                           b.price, if b.needsConfirmation then Some(b.expires) else None)
  {
    TopIsUnique(db.tariffs, db.drivers[b.driver], db.orders[b.order], b.fare.tariff.id);
  }

  // ----- the passenger's answer -----

  /** Nobody has answered to the price of this assigned order. */
  predicate Unanswered(row: Order) {
    row.status == DriverAssigned && row.confirmation == Some(Pending)
  }

  /** Only the order's own passenger confirms, in time, a price there is; a fixed quote is then agreed at it. */
  lemma ConfirmOutcome(db: Db, o: Id, passenger: Id)
    ensures Apply(db, Confirm(o, passenger)) ==
            if o in db.orders && Unanswered(db.orders[o]) && db.orders[o].passenger == passenger
               && db.orders[o].expires.Some? && db.now < db.orders[o].expires.value
               && db.orders[o].proposed.Some? && db.orders[o].proposed.value > 0 then
              var row := db.orders[o];
              db.(orders := db.orders[o := row.(
                confirmation := Some(Confirmed), agreed := if row.fareMode == FixedQuote then row.proposed else None,
                version := row.version + 1, history := row.history + [PriceConfirmed(passenger, db.now)])])
            else db
  {
  }

  /** The row of an order whose driver is let go: nothing of the reservation is left, and he stands last among those
      declined. */
  predicate LetGo(before: Order, after: Order, d: Id) {
    && after.status == Searching && after.driver == None && after.park == None
    && after.assignedTariff == None && after.snapshot == None
    && after.confirmation == None && after.proposed == None && after.agreed == None && after.expires == None
    && after.declined == before.declined + [d]
    && after.version == before.version + 1 && after.history == before.history + [Released(d)]
    && after.passenger == before.passenger && after.byPark == before.byPark && after.carClass == before.carClass
    && after.fareMode == before.fareMode && after.route == before.route && after.estimated == before.estimated
    && after.preassigned == before.preassigned && after.finalPrice == before.finalPrice
  }

  /** The driver's row as it was, or with another status if he had one of these. */
  predicate Turned(drivers: map<Id, Driver>, after: map<Id, Driver>, d: Id, from: set<DriverStatus>, to: DriverStatus) {
    && after.Keys == drivers.Keys
    && (forall e :: e in drivers && e != d ==> after[e] == drivers[e])
    && (d in drivers ==> after[d] == if drivers[d].status in from then drivers[d].(status := to) else drivers[d])
  }

  lemma FreeOutcome(db: Db, o: Id, d: Id)
    ensures var after := Apply(db, Free(o, d));
            if o in db.orders && Unanswered(db.orders[o]) && db.orders[o].driver == Some(d) then
              && after.orders.Keys == db.orders.Keys && LetGo(db.orders[o], after.orders[o], d)
              && (forall p :: p in db.orders && p != o ==> after.orders[p] == db.orders[p])
              && Turned(db.drivers, after.drivers, d, {Busy}, Online) && after.tariffs == db.tariffs && after.now == db.now
            else after == db
  {
  }

  // ----- the trip -----

  /** The driver with this user may take the order there from where it is. */
  predicate MayDrive(db: Db, user: Id, o: Id, to: OrderStatus) {
    && o in db.orders
    && var row := db.orders[o];
    && row.driver.Some? && row.driver.value in db.drivers && db.drivers[row.driver.value].user == user
    && (row.status == to || (row.status, to) in TRANSITIONS)
    && (Unanswered(row) ==> to == Cancelled)
  }

  /** The order goes there at this price, all else as it was; at the end its working driver is online. */
  predicate Driven(db: Db, after: Db, o: Id, to: OrderStatus, finalPrice: Option<int>)
    requires o in db.orders && db.orders[o].driver.Some?
  {
    var row := db.orders[o];
    && after.orders == db.orders[o := row.(status := to, finalPrice := finalPrice, version := row.version + 1,
                                           history := row.history + [Moved(to)])]
    && Turned(db.drivers, after.drivers, row.driver.value, if to in {Cancelled, Completed} then {Busy, Online} else {}, Online)
    && after.tariffs == db.tariffs && after.now == db.now
  }

  lemma MayDriveIff(db: Db, user: Id, o: Id, to: OrderStatus)
    ensures CanMove(db, user, o, to) <==> MayDrive(db, user, o, to)
  {
    if o in db.orders {
      StatusTable(db.orders[o].status, to);
    }
  }

  lemma MovedIsDriven(db: Db, user: Id, o: Id, to: OrderStatus, finalPrice: Option<int>)
    requires CanMove(db, user, o, to)
    ensures Driven(db, Move(db, user, o, to, finalPrice), o, to, if to == Completed then finalPrice else db.orders[o].finalPrice)
  {
  }

  lemma DriveOutcome(db: Db, user: Id, o: Id, to: OrderStatus, finalPrice: Option<int>)
    ensures var after := Apply(db, Drive(user, o, to, finalPrice));
            if MayDrive(db, user, o, to)
            then Driven(db, after, o, to, if to == Completed then finalPrice else db.orders[o].finalPrice)
            else after == db
  {
    MayDriveIff(db, user, o, to);
    if CanMove(db, user, o, to) {
      MovedIsDriven(db, user, o, to, finalPrice);
    }
  }

  /** A transition built from an earlier read is applied exactly if status and version are still those read. */
  lemma TransitionOutcome(db: Db, t: Transition, finalPrice: Option<int>)
    ensures Update(db, t, finalPrice) ==
            if t.order in db.orders && db.orders[t.order].status == t.from && db.orders[t.order].version == t.expectedVersion
               && (Unanswered(db.orders[t.order]) ==> t.to == Cancelled) then
              var row := db.orders[t.order];
              db.(orders := db.orders[t.order := row.(
                status := t.to, finalPrice := if t.to == Completed then finalPrice else row.finalPrice,
                version := row.version + 1, history := row.history + [Moved(t.to)])])
            else db
  {
  }

  /** A completion goes through exactly when the driver may complete the order and it has a final price or an estimate;
      the final price stays, or else becomes the estimate. */
  lemma CompletionOutcome(db: Db, user: Id, o: Id)
    ensures CanComplete(db, user, o) <==>
              MayDrive(db, user, o, Completed) && (db.orders[o].finalPrice.Some? || db.orders[o].estimated.Some?)
    ensures var after := Apply(db, Finish(user, o));
            if CanComplete(db, user, o) then
              var row := db.orders[o];
              && after.orders[o].finalPrice.Some?
              && (row.finalPrice.Some? ==> Driven(db, after, o, Completed, row.finalPrice))
              && (row.finalPrice.None? ==> Driven(db, after, o, Completed, row.estimated))
            else after == db
  {
    MayDriveIff(db, user, o, Completed);
    if CanComplete(db, user, o) {
      MovedIsDriven(db, user, o, Completed, ChargedPrice(db.orders[o]));
    }
  }

  /** The order's own passenger cancels it until the trip starts; a driver who was busy with it is online then. */
  lemma PassengerCancelOutcome(db: Db, o: Id, passenger: Id)
    ensures var after := Apply(db, PassengerCancel(o, passenger));
            if o in db.orders && db.orders[o].passenger == passenger
               && db.orders[o].status in {Searching, DriverAssigned, DriverArriving, DriverWaiting} then
              var row := db.orders[o];
              && after.orders == db.orders[o := row.(status := Cancelled, version := row.version + 1,
                                                     history := row.history + [Moved(Cancelled)])]
              && (if row.driver.Some? then Turned(db.drivers, after.drivers, row.driver.value, {Busy}, Online)
                  else after.drivers == db.drivers)
              && after.tariffs == db.tariffs && after.now == db.now
            else after == db
  {
  }

  /** And then he is free, unless he has another order under way. */
  lemma CancelFreesDriverIff(db: Db, o: Id, passenger: Id)
    requires Consistent(db) && CanCancel(db, o, passenger) && db.orders[o].driver.Some?
    requires db.orders[o].driver.value in db.drivers && db.drivers[db.orders[o].driver.value].status == Busy
    ensures var d, after := db.orders[o].driver.value, Cancel(db, o, passenger);
            && after.drivers[d].status == Online
            && (Active(db.orders[o].status) ==> !HasActiveOrder(after.orders, d))
  {
    var d, after := db.orders[o].driver.value, Cancel(db, o, passenger);
    if p :| p in after.orders && after.orders[p].driver == Some(d) && Active(after.orders[p].status) {
      assert p != o && db.orders[p] == after.orders[p];
    }
  }

  lemma EdgeKeepsFinalPrice(before: Order, after: Order, a: Action, o: Id, now: Instant)
    requires Edge(before, after, a, o, now) && !(a.Finish? && a.o == o) && !(a.Drive? && a.o == o && a.to == Completed)
    ensures after.finalPrice == before.finalPrice
  {
    if after != before {
      var e :| after.history == before.history + [e] && Leaves(a, o, e, now) && Changes(before, after, e);
      assert e != Moved(Completed);
    }
  }

  /** A final price is only ever written by a completion. */
  lemma OnlyCompletionsCharge(db: Db, a: Action, o: Id)
    requires o in db.orders && !(a.Finish? && a.o == o) && !(a.Drive? && a.o == o && a.to == Completed)
    ensures o in Apply(db, a).orders && Apply(db, a).orders[o].finalPrice == db.orders[o].finalPrice
  {
    ActionEdge(db, a, o);
    EdgeKeepsFinalPrice(db.orders[o], Apply(db, a).orders[o], a, o, db.now);
  }

  // ----- drivers -----

  lemma BusyAndOnlineOutcome(db: Db, d: Id, eligible: bool)
    ensures Apply(db, MarkBusy(d)).(drivers := db.drivers) == db
            && Turned(db.drivers, Apply(db, MarkBusy(d)).drivers, d, {Online}, Busy)
    ensures Apply(db, GoOnline(d, eligible)).(drivers := db.drivers) == db
            && Turned(db.drivers, Apply(db, GoOnline(d, eligible)).drivers, d,
                      if eligible && d in db.drivers && db.drivers[d].verified && db.drivers[d].park.Some?
                      then {Offline, Paused, Online} else {}, Online)
  {
  }

  /** A driver goes off line from any status, unless an order of his is under way. */
  lemma OfflineOutcome(db: Db, d: Id)
    ensures Apply(db, GoOffline(d)) ==
            if d in db.drivers
               && (forall o :: o in db.orders && db.orders[o].driver == Some(d)
                     ==> db.orders[o].status !in {DriverAssigned, DriverArriving, DriverWaiting, InProgress})
            then db.(drivers := db.drivers[d := db.drivers[d].(status := Offline)])
            else db
  {
  }

  /** A driver changes his park off line and without an order of any kind that is not over. */
  lemma ChangeParkOutcome(db: Db, d: Id, park: Id)
    ensures Apply(db, ChangePark(d, park)) ==
            if d in db.drivers && db.drivers[d].status == Offline
               && (forall o :: o in db.orders && (db.orders[o].driver == Some(d) || db.orders[o].preassigned == Some(d))
                     ==> db.orders[o].status in {Completed, Cancelled, Failed})
            then db.(drivers := db.drivers[d := db.drivers[d].(park := Some(park), verified := false)])
            else db
  {
  }
}
