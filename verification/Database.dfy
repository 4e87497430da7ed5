/** The order, driver and tariff tables and every transaction on them, each one atomic step:
    internal/repository/dispatch_order_repository.go, driver_mobile_repository.go and the cancellation
    of passenger_order_repository.go. */
module Database {
  import opened Prelude
  import opened Orders
  import opened TripPricing

  type Id = nat
  /** Microseconds, the precision of the database. */
  type Instant = nat

  datatype FareMode = FixedQuote | Metered

  datatype Confirmation = Pending | Confirmed

  datatype Route = Route(distance: int64, duration: int64)

  datatype Tariff = Tariff(id: Id, park: Id, carClass: Id, fareMode: FareMode, priority: int, active: bool,
                           updatedAt: Instant, rates: Rates)

  /** What happened to an order, oldest first. */
  datatype Event =
    | SearchStarted
    | Reserved(driver: Id, expires: Option<Instant>)
    | PriceConfirmed(passenger: Id, at: Instant)
    | Released(driver: Id)
    | Moved(to: OrderStatus)
    | GaveUp

  datatype Order = Order(
    passenger: Id, byPark: bool, carClass: Option<Id>, fareMode: FareMode, route: Option<Route>, estimated: Option<int>,
    status: OrderStatus, driver: Option<Id>, park: Option<Id>, preassigned: Option<Id>,
    assignedTariff: Option<Id>, snapshot: Option<Tariff>,
    confirmation: Option<Confirmation>, proposed: Option<int>, agreed: Option<int>, expires: Option<Instant>,
    declined: seq<Id>, finalPrice: Option<int>, version: nat, history: seq<Event>)

  datatype DriverStatus = Offline | Online | Busy | Paused | Blocked

  datatype Driver = Driver(user: Id, park: Option<Id>, status: DriverStatus, verified: bool)

  datatype Fare = Fare(tariff: Tariff, route: Route)

  datatype Db = Db(now: Instant, orders: map<Id, Order>, drivers: map<Id, Driver>, tariffs: map<Id, Tariff>)

  /** A changed row: one version up, one event more. */
  function Logged(row: Order, event: Event): Order {
    row.(version := row.version + 1, history := row.history + [event])
  }

  // ----- tariffs -----

  predicate Matches(t: Tariff, d: Driver, o: Order) {
    t.active && d.park == Some(t.park) && o.carClass == Some(t.carClass) && t.fareMode == o.fareMode
  }

  predicate Higher(a: Tariff, b: Tariff) {
    a.priority > b.priority || (a.priority == b.priority && a.id > b.id)
  }

  /** The tariff that ORDER BY priority DESC, id DESC LIMIT 1 selects for this driver and order. */
  predicate IsTop(tariffs: map<Id, Tariff>, d: Driver, o: Order, i: Id) {
    && i in tariffs && Matches(tariffs[i], d, o)
    && forall j :: j in tariffs && Matches(tariffs[j], d, o) ==> !Higher(tariffs[j], tariffs[i])
  }

  ghost function TopTariff(tariffs: map<Id, Tariff>, d: Driver, o: Order): Option<Tariff> {
    if exists i :: IsTop(tariffs, d, o, i) then
      var i :| IsTop(tariffs, d, o, i);
      Some(tariffs[i])
    else None
  }

  predicate KeyedById(tariffs: map<Id, Tariff>) {
    forall i :: i in tariffs ==> tariffs[i].id == i
  }

  lemma TopIsUnique(tariffs: map<Id, Tariff>, d: Driver, o: Order, i: Id)
    requires KeyedById(tariffs) && IsTop(tariffs, d, o, i)
    ensures TopTariff(tariffs, d, o) == Some(tariffs[i])
  {
    var j :| IsTop(tariffs, d, o, j) && TopTariff(tariffs, d, o) == Some(tariffs[j]);
    assert IsTop(tariffs, d, o, j);
    assert !Higher(tariffs[i], tariffs[j]);
    assert !Higher(tariffs[j], tariffs[i]);
  }

  // ----- reads -----

  predicate HasActiveOrder(orders: map<Id, Order>, d: Id) {
    exists o :: o in orders && orders[o].driver == Some(d) && Active(orders[o].status)
  }

  /** Any order that forbids moving the driver to another park. */
  predicate HasOpenOrder(orders: map<Id, Order>, d: Id) {
    exists o :: o in orders && (orders[o].driver == Some(d) || orders[o].preassigned == Some(d)) && !Terminal(orders[o].status)
  }

  ghost function CandidateFare(db: Db, o: Id, d: Id): Option<Fare> {
    if o in db.orders && d in db.drivers && db.orders[o].status == Searching && db.orders[o].route.Some? then
      var top := TopTariff(db.tariffs, db.drivers[d], db.orders[o]);
      if top.Some? then Some(Fare(top.value, db.orders[o].route.value)) else None
    else None
  }

  /** The driver is taken and the passenger has not answered to his price. */
  predicate AwaitsPassenger(row: Order) {
    row.status == DriverAssigned && row.confirmation == Some(Pending)
  }

  /** What the listing of expired confirmations selects. */
  predicate Expired(db: Db, o: Id) {
    o in db.orders && AwaitsPassenger(db.orders[o]) && db.orders[o].expires.Some? && db.orders[o].expires.value <= db.now
  }

  function ExpiredOrders(db: Db): set<Id> {
    set o | o in db.orders && Expired(db, o)
  }

  /** What the listing of searching orders selects. */
  function SearchingOrders(db: Db): set<Id> {
    set o | o in db.orders && db.orders[o].status == Searching && db.orders[o].driver.None?
  }

  predicate NoDuplicates(ids: seq<Id>) {
    forall i, j :: 0 <= i < j < |ids| ==> ids[i] != ids[j]
  }

  /** At most so many of the members, each once, and all of them when they are no more. */
  predicate Lists(ids: seq<Id>, members: set<Id>, limit: nat) {
    && NoDuplicates(ids) && (forall i :: 0 <= i < |ids| ==> ids[i] in members)
    && |ids| == if |members| <= limit then |members| else limit
  }

  predicate ExpiresBefore(orders: map<Id, Order>, a: Id, b: Id) {
    && a in orders && b in orders && orders[a].expires.Some? && orders[b].expires.Some?
    && orders[a].expires.value <= orders[b].expires.value
  }

  /** The listing of expired confirmations: the earliest to expire come first, and no other expires before them. */
  predicate ListsEarliest(db: Db, ids: seq<Id>, limit: nat) {
    && Lists(ids, ExpiredOrders(db), limit)
    && (forall i, j :: 0 <= i < j < |ids| ==> ExpiresBefore(db.orders, ids[i], ids[j]))
    && (forall o, i :: o in ExpiredOrders(db) && o !in ids && 0 <= i < |ids| ==> ExpiresBefore(db.orders, ids[i], o))
  }

  // ----- guarded updates -----

  predicate CanStartSearch(db: Db, o: Id) {
    o in db.orders && (db.orders[o].status == Created || db.orders[o].status == Searching) && db.orders[o].driver.None?
  }

  function StartSearch(db: Db, o: Id): Db {
    if CanStartSearch(db, o) then
      db.(orders := db.orders[o := Logged(db.orders[o].(status := Searching), SearchStarted)])
    else db
  }

  predicate CanGiveUp(db: Db, o: Id) {
    o in db.orders && db.orders[o].status == Searching && db.orders[o].driver.None?
  }

  function GiveUp(db: Db, o: Id): Db {
    if CanGiveUp(db, o) then db.(orders := db.orders[o := Logged(db.orders[o].(status := Failed), GaveUp)])
    else db
  }

  /** The arguments of an assignment; `eligible` answers for location, car and park activity. */
  datatype Bid = Bid(order: Id, driver: Id, fare: Fare, price: int, expires: Instant, needsConfirmation: bool, eligible: bool)

  predicate CanAssign(db: Db, b: Bid) {
    && b.order in db.orders && b.driver in db.drivers
    && var row := db.orders[b.order];
       var d := db.drivers[b.driver];
       var t := b.fare.tariff;
    && row.status == Searching && row.driver.None? && row.route == Some(b.fare.route)
    && d.status == Online && d.verified && b.eligible
    && !HasActiveOrder(db.orders, b.driver)
    && t.id in db.tariffs && db.tariffs[t.id].updatedAt == t.updatedAt && IsTop(db.tariffs, d, row, t.id)
    && b.price > 0
  }

  ghost function AssignedRow(db: Db, b: Bid): Order
    requires b.order in db.orders && b.driver in db.drivers
  {
    var row := db.orders[b.order];
    var top := TopTariff(db.tariffs, db.drivers[b.driver], row);
    Logged(row.(
      status := DriverAssigned, driver := Some(b.driver), park := db.drivers[b.driver].park,
      assignedTariff := (if top.Some? then Some(top.value.id) else None), snapshot := top,
      confirmation := Some(if b.needsConfirmation then Pending else Confirmed),
      proposed := Some(b.price),
      agreed := (if b.needsConfirmation || row.fareMode != FixedQuote then None else Some(b.price)),
      expires := (if b.needsConfirmation then Some(b.expires) else None)),
      Reserved(b.driver, if b.needsConfirmation then Some(b.expires) else None))
  }

  ghost function Assign(db: Db, b: Bid): Db {
    if CanAssign(db, b) then db.(orders := db.orders[b.order := AssignedRow(db, b)]) else db
  }

  predicate CanConfirm(db: Db, o: Id, passenger: Id) {
    && o in db.orders
    && var row := db.orders[o];
    && row.passenger == passenger && row.status == DriverAssigned && row.confirmation == Some(Pending)
    && row.expires.Some? && row.expires.value > db.now && row.proposed.Some? && row.proposed.value > 0
  }

  function ConfirmPrice(db: Db, o: Id, passenger: Id): Db {
    if CanConfirm(db, o, passenger) then
      var row := db.orders[o];
      db.(orders := db.orders[o := Logged(
        row.(confirmation := Some(Confirmed), agreed := if row.fareMode == FixedQuote then row.proposed else None),
        PriceConfirmed(passenger, db.now))])
    else db
  }

  predicate CanRelease(db: Db, o: Id, d: Id) {
    && o in db.orders
    && var row := db.orders[o];
       row.driver == Some(d) && row.status == DriverAssigned && row.confirmation == Some(Pending)
  }

  function ReleasedRow(row: Order, d: Id): Order {
    Logged(row.(
      status := Searching, driver := None, park := None, assignedTariff := None, snapshot := None,
      confirmation := None, proposed := None, agreed := None, expires := None,
      declined := row.declined + [d]), Released(d))
  }

  function WithStatus(drivers: map<Id, Driver>, d: Id, from: set<DriverStatus>, to: DriverStatus): map<Id, Driver> {
    if d in drivers && drivers[d].status in from then drivers[d := drivers[d].(status := to)] else drivers
  }

  function Release(db: Db, o: Id, d: Id): Db {
    if CanRelease(db, o, d) then
      db.(orders := db.orders[o := ReleasedRow(db.orders[o], d)], drivers := WithStatus(db.drivers, d, {Busy}, Online))
    else db
  }

  /** A status change built from an earlier read of the order. */
  datatype Transition = Transition(order: Id, from: OrderStatus, expectedVersion: nat, to: OrderStatus)

  function TransitionFrom(o: Id, row: Order, to: OrderStatus): Option<Transition> {
    if CanTransition(row.status, to) then Some(Transition(o, row.status, row.version, to)) else None
  }

  /** The guarded update: the order is still as it was read, and a pending price only lets it be cancelled. */
  predicate CanUpdate(db: Db, t: Transition) {
    && t.order in db.orders
    && var row := db.orders[t.order];
    && row.status == t.from && row.version == t.expectedVersion
    && (row.status == DriverAssigned ==> t.to == Cancelled || row.confirmation != Some(Pending))
  }

  function Update(db: Db, t: Transition, finalPrice: Option<int>): Db {
    if CanUpdate(db, t) then
      var row := db.orders[t.order];
      db.(orders := db.orders[t.order := Logged(
        row.(status := t.to, finalPrice := if t.to == Completed then finalPrice else row.finalPrice), Moved(t.to))])
    else db
  }

  /** The driver path: the order is found through the user of its driver and read and updated in one transaction. */
  predicate CanMove(db: Db, user: Id, o: Id, to: OrderStatus) {
    && o in db.orders
    && var row := db.orders[o];
    && row.driver.Some? && row.driver.value in db.drivers && db.drivers[row.driver.value].user == user
    && var t := TransitionFrom(o, row, to);
       t.Some? && CanUpdate(db, t.value)
  }

  function Move(db: Db, user: Id, o: Id, to: OrderStatus, finalPrice: Option<int>): Db {
    if CanMove(db, user, o, to) then
      var row := db.orders[o];
      Update(db, TransitionFrom(o, row, to).value, finalPrice).(
        drivers := if to == Cancelled || to == Completed
                   then WithStatus(db.drivers, row.driver.value, {Busy, Online}, Online) else db.drivers)
    else db
  }

  /** Completion charges the price already final, or else the estimate; without either it fails. */
  function ChargedPrice(row: Order): Option<int> {
    if row.finalPrice.Some? then row.finalPrice else row.estimated
  }

  predicate CanComplete(db: Db, user: Id, o: Id) {
    CanMove(db, user, o, Completed) && ChargedPrice(db.orders[o]).Some?
  }

  function Complete(db: Db, user: Id, o: Id): Db {
    if CanComplete(db, user, o) then Move(db, user, o, Completed, ChargedPrice(db.orders[o])) else db
  }

  predicate CanCancel(db: Db, o: Id, passenger: Id) {
    && o in db.orders && db.orders[o].passenger == passenger
    && db.orders[o].status in {Searching, DriverAssigned, DriverArriving, DriverWaiting}
  }

  function Cancel(db: Db, o: Id, passenger: Id): Db {
    if CanCancel(db, o, passenger) then
      var row := db.orders[o];
      db.(orders := db.orders[o := Logged(row.(status := Cancelled), Moved(Cancelled))],
          drivers := if row.driver.Some? then WithStatus(db.drivers, row.driver.value, {Busy}, Online) else db.drivers)
    else db
  }

  predicate CanTransfer(db: Db, d: Id) {
    d in db.drivers && db.drivers[d].status == Offline && !HasOpenOrder(db.orders, d)
  }

  function Transfer(db: Db, d: Id, park: Id): Db {
    if CanTransfer(db, d) then
      db.(drivers := db.drivers[d := db.drivers[d].(park := Some(park), status := Offline, verified := false)])
    else db
  }

  // ----- everything that can happen to the tables -----

  datatype Action =
    | Tick(later: Instant)
    | NewOrder(o: Id, row: Order)
    | NewDriver(d: Id, user: Id, home: Option<Id>)
    | PutTariff(t: Tariff)
    | PutDriver(d: Id, status: DriverStatus, verified: bool)
    | GoOnline(d: Id, eligible: bool)
    | GoOffline(d: Id)
    | MarkBusy(d: Id)
    | BeginSearch(o: Id)
    | Fail(o: Id)
    | Reserve(bid: Bid)
    | Confirm(o: Id, passenger: Id)
    | Free(o: Id, d: Id)
    | Drive(user: Id, o: Id, to: OrderStatus, finalPrice: Option<int>)
    | Finish(user: Id, o: Id)
    | PassengerCancel(o: Id, passenger: Id)
    | ChangePark(d: Id, park: Id)

  /** A freshly created order: no driver, nothing priced, nobody declined. */
  predicate Fresh(row: Order) {
    && row.status == Created && row.driver.None? && row.park.None? && row.assignedTariff.None? && row.snapshot.None?
    && row.confirmation.None? && row.proposed.None? && row.agreed.None? && row.expires.None? && row.finalPrice.None?
    && row.declined == [] && row.version == 1 && row.history == []
  }

  /** Inserting or editing a tariff stamps it, and the clock has moved since the last stamp. */
  predicate CanPutTariff(db: Db, t: Tariff) {
    t.updatedAt == db.now && (t.id in db.tariffs ==> db.tariffs[t.id].updatedAt < db.now)
  }

  predicate TouchesOrders(a: Action) {
    || a.NewOrder? || a.BeginSearch? || a.Fail? || a.Reserve? || a.Confirm? || a.Free?
    || a.Drive? || a.Finish? || a.PassengerCancel?
  }

  /** Transactions that change an order, and with it perhaps its driver. */
  ghost function ApplyToOrder(db: Db, a: Action): Db
    requires TouchesOrders(a)
  {
    match a
    case NewOrder(o, row) => if o !in db.orders && Fresh(row) then db.(orders := db.orders[o := row]) else db
    case BeginSearch(o) => StartSearch(db, o)
    case Fail(o) => GiveUp(db, o)
    case Reserve(bid) => Assign(db, bid)
    case Confirm(o, passenger) => ConfirmPrice(db, o, passenger)
    case Free(o, d) => Release(db, o, d)
    case Drive(user, o, to, finalPrice) => Move(db, user, o, to, finalPrice)
    case Finish(user, o) => Complete(db, user, o)
    case PassengerCancel(o, passenger) => Cancel(db, o, passenger)
  }

  /** The clock, tariffs and drivers. */
  function ApplyElsewhere(db: Db, a: Action): Db
    requires !TouchesOrders(a)
  {
    match a
    case Tick(later) => if later >= db.now then db.(now := later) else db
    case NewDriver(d, user, home) =>
      if d !in db.drivers then db.(drivers := db.drivers[d := Driver(user, home, Offline, false)]) else db
    case PutTariff(t) => if CanPutTariff(db, t) then db.(tariffs := db.tariffs[t.id := t]) else db
    case PutDriver(d, status, verified) =>
      if d in db.drivers then db.(drivers := db.drivers[d := db.drivers[d].(status := status, verified := verified)]) else db
    case GoOnline(d, eligible) =>
      if eligible && d in db.drivers && db.drivers[d].park.Some? && db.drivers[d].verified
      then db.(drivers := WithStatus(db.drivers, d, {Offline, Paused, Online}, Online)) else db
    case GoOffline(d) =>
      if d in db.drivers && !HasActiveOrder(db.orders, d)
      then db.(drivers := db.drivers[d := db.drivers[d].(status := Offline)]) else db
    case MarkBusy(d) => db.(drivers := WithStatus(db.drivers, d, {Online}, Busy))
    case ChangePark(d, park) => Transfer(db, d, park)
  }

  ghost function Apply(db: Db, a: Action): Db {
    if TouchesOrders(a) then ApplyToOrder(db, a) else ApplyElsewhere(db, a)
  }

  ghost function Run(db: Db, actions: seq<Action>): Db
    decreases |actions|
  {
    if actions == [] then db else Run(Apply(db, actions[0]), actions[1..])
  }
}
