/** What every run of transactions keeps: the life of a reservation, one active order per driver,
    the park of an order, versions and statuses. */
module Reservations {
  import opened Prelude
  import opened Orders
  import opened Database
  import opened Edges

  // ----- the life of an order, as an automaton over its events -----

  /** An order looks for a driver, holds one until its passenger accepts the price, has one for good, or is over. */
  datatype Phase = Open | Held(driver: Id, expires: Instant) | Firm(driver: Id) | Closed

  /** The only moves there are. A held reservation is confirmed by its own passenger before it expires, released, or cancelled. */
  function Next(phase: Phase, event: Event, passenger: Id): Option<Phase> {
    match phase
    case Open =>
      (match event
       case SearchStarted => Some(Open)
       case Reserved(d, Some(expires)) => Some(Held(d, expires))
       case Reserved(d, None) => Some(Firm(d))
       case GaveUp => Some(Closed)
       case Moved(to) => if to == Cancelled then Some(Closed) else None
       case _ => None)
    case Held(d, expires) =>
      (match event
       case PriceConfirmed(who, at) => if who == passenger && at < expires then Some(Firm(d)) else None
       case Released(released) => if released == d then Some(Open) else None
       case Moved(to) => if to == Cancelled then Some(Closed) else None
       case _ => None)
    case Firm(d) =>
      (match event
       case Moved(to) => if Terminal(to) then Some(Closed) else if Active(to) then Some(Firm(d)) else None
       case _ => None)
    case Closed =>
      (match event
       case Moved(to) => if Terminal(to) then Some(Closed) else None
       case _ => None)
  }

  function Replay(history: seq<Event>, passenger: Id): Option<Phase> {
    if history == [] then Some(Open)
    else
      var before := Replay(history[..|history| - 1], passenger);
      if before.None? then None else Next(before.value, history[|history| - 1], passenger)
  }

  lemma ReplayLogged(row: Order, event: Event)
    ensures var before := Replay(row.history, row.passenger);
            Replay(Logged(row, event).history, row.passenger)
            == if before.None? then None else Next(before.value, event, row.passenger)
  {
    assert (row.history + [event])[..|row.history|] == row.history;
  }

  /** The phase that a row's columns show. */
  function PhaseOf(row: Order): Option<Phase> {
    if Terminal(row.status) then Some(Closed)
    else if !Active(row.status) then (if row.driver.None? then Some(Open) else None)
    else if row.driver.None? then None
    else if row.status == DriverAssigned && row.confirmation == Some(Pending) then
      (if row.expires.Some? then Some(Held(row.driver.value, row.expires.value)) else None)
    else Some(Firm(row.driver.value))
  }

  /** The columns and the events of a row tell the same story. */
  predicate RowOk(row: Order) {
    && PhaseOf(row).Some?
    && Replay(row.history, row.passenger) == PhaseOf(row)
    && row.version == 1 + |row.history|
  }

  // ----- the tables -----

  predicate OneActiveOrder(orders: map<Id, Order>) {
    forall p, q :: p in orders && q in orders && p != q && orders[p].driver.Some? && orders[p].driver == orders[q].driver
      ==> !Active(orders[p].status) || !Active(orders[q].status)
  }

  /** A running order with a driver belongs to the park of that driver. */
  predicate ParkAgrees(db: Db) {
    forall o :: o in db.orders && db.orders[o].driver.Some? && !Terminal(db.orders[o].status) ==>
      db.orders[o].driver.value in db.drivers
      && db.orders[o].park.Some? && db.orders[o].park == db.drivers[db.orders[o].driver.value].park
  }

  predicate TariffsStamped(db: Db) {
    KeyedById(db.tariffs) && forall i :: i in db.tariffs ==> db.tariffs[i].updatedAt <= db.now
  }

  predicate RowsOk(orders: map<Id, Order>) {
    forall o :: o in orders ==> RowOk(orders[o])
  }

  predicate Consistent(db: Db) {
    RowsOk(db.orders) && OneActiveOrder(db.orders) && ParkAgrees(db) && TariffsStamped(db)
  }

  /** Changing one row keeps every table invariant when the row keeps its own. */
  lemma RowChange(db: Db, o: Id, row: Order, drivers: map<Id, Driver>)
    requires Consistent(db) && RowOk(row)
    requires forall d :: d in db.drivers ==> d in drivers && drivers[d].park == db.drivers[d].park
    requires row.driver.Some? && Active(row.status) ==>
      forall p :: p in db.orders && p != o && db.orders[p].driver == row.driver ==> !Active(db.orders[p].status)
    requires row.driver.Some? && !Terminal(row.status) ==>
      row.driver.value in drivers && row.park.Some? && row.park == drivers[row.driver.value].park
    ensures Consistent(db.(orders := db.orders[o := row], drivers := drivers))
  {
  }

  lemma AssignKeeps(db: Db, b: Bid)
    requires Consistent(db)
    ensures Consistent(Assign(db, b))
  {
    if CanAssign(db, b) {
      var row := db.orders[b.order];
      var taken := AssignedRow(db, b);
      TopIsUnique(db.tariffs, db.drivers[b.driver], row, b.fare.tariff.id);
      ReplayLogged(row, Reserved(b.driver, if b.needsConfirmation then Some(b.expires) else None));
      RowChange(db, b.order, taken, db.drivers);
    }
  }

  lemma ConfirmKeeps(db: Db, o: Id, passenger: Id)
    requires Consistent(db)
    ensures Consistent(ConfirmPrice(db, o, passenger))
  {
    if CanConfirm(db, o, passenger) {
      ReplayLogged(db.orders[o], PriceConfirmed(passenger, db.now));
      RowChange(db, o, ConfirmPrice(db, o, passenger).orders[o], db.drivers);
    }
  }

  lemma ReleaseKeeps(db: Db, o: Id, d: Id)
    requires Consistent(db)
    ensures Consistent(Release(db, o, d))
  {
    if CanRelease(db, o, d) {
      ReplayLogged(db.orders[o], Released(d));
      RowChange(db, o, ReleasedRow(db.orders[o], d), WithStatus(db.drivers, d, {Busy}, Online));
    }
  }

  lemma MovedRowOk(db: Db, user: Id, o: Id, to: OrderStatus, finalPrice: Option<int>)
    requires CanMove(db, user, o, to) && RowOk(db.orders[o])
    ensures RowOk(Move(db, user, o, to, finalPrice).orders[o])
    ensures Active(to) ==> Active(db.orders[o].status)
  {
    ReplayLogged(db.orders[o], Moved(to));
  }

  lemma MoveKeeps(db: Db, user: Id, o: Id, to: OrderStatus, finalPrice: Option<int>)
    requires Consistent(db)
    ensures Consistent(Move(db, user, o, to, finalPrice))
  {
    if CanMove(db, user, o, to) {
      var after := Move(db, user, o, to, finalPrice);
      MovedRowOk(db, user, o, to, finalPrice);
      RowChange(db, o, after.orders[o], after.drivers);
    }
  }

  lemma CancelledRowOk(db: Db, o: Id, passenger: Id)
    requires CanCancel(db, o, passenger) && RowOk(db.orders[o])
    ensures RowOk(Cancel(db, o, passenger).orders[o])
  {
    ReplayLogged(db.orders[o], Moved(Cancelled));
  }

  lemma CancelKeeps(db: Db, o: Id, passenger: Id)
    requires Consistent(db)
    ensures Consistent(Cancel(db, o, passenger))
  {
    if CanCancel(db, o, passenger) {
      var after := Cancel(db, o, passenger);
      CancelledRowOk(db, o, passenger);
      RowChange(db, o, after.orders[o], after.drivers);
    }
  }

  lemma SearchKeeps(db: Db, o: Id)
    requires Consistent(db)
    ensures Consistent(StartSearch(db, o)) && Consistent(GiveUp(db, o))
  {
    if CanStartSearch(db, o) {
      ReplayLogged(db.orders[o], SearchStarted);
      RowChange(db, o, StartSearch(db, o).orders[o], db.drivers);
    }
    if CanGiveUp(db, o) {
      ReplayLogged(db.orders[o], GaveUp);
      RowChange(db, o, GiveUp(db, o).orders[o], db.drivers);
    }
  }

  /** Drivers may change in everything but their parks. */
  lemma ParksKeep(db: Db, drivers: map<Id, Driver>)
    requires Consistent(db) && forall d :: d in db.drivers ==> d in drivers && drivers[d].park == db.drivers[d].park
    ensures Consistent(db.(drivers := drivers))
  {
  }

  /** A transfer moves only drivers without an open order. */
  lemma TransferKeeps(db: Db, d: Id, park: Id)
    requires Consistent(db)
    ensures Consistent(Transfer(db, d, park))
  {
  }

  lemma TariffKeeps(db: Db, t: Tariff)
    requires Consistent(db) && CanPutTariff(db, t)
    ensures Consistent(db.(tariffs := db.tariffs[t.id := t]))
  {
  }

  lemma ClockKeeps(db: Db, later: Instant)
    requires Consistent(db) && later >= db.now
    ensures Consistent(db.(now := later))
  {
  }

  lemma NewOrderKeeps(db: Db, o: Id, row: Order)
    requires Consistent(db) && o !in db.orders && Fresh(row)
    ensures Consistent(db.(orders := db.orders[o := row]))
  {
    RowChange(db, o, row, db.drivers);
  }

  lemma OthersKeep(db: Db, a: Action)
    requires Consistent(db) && !TouchesOrders(a)
    ensures Consistent(ApplyElsewhere(db, a))
  {
    match a {
      case ChangePark(d, park) => TransferKeeps(db, d, park);
      case Tick(later) =>
        if later >= db.now {
          ClockKeeps(db, later);
        }
      case PutTariff(t) =>
        if CanPutTariff(db, t) {
          TariffKeeps(db, t);
        }
      case NewDriver(d, user, home) =>
        if d !in db.drivers {
          ParksKeep(db, db.drivers[d := Driver(user, home, Offline, false)]);
        }
      case PutDriver(d, status, verified) =>
        if d in db.drivers {
          ParksKeep(db, db.drivers[d := db.drivers[d].(status := status, verified := verified)]);
        }
      case GoOnline(d, _) => ParksKeep(db, WithStatus(db.drivers, d, {Offline, Paused, Online}, Online));
      case GoOffline(d) =>
        if d in db.drivers {
          ParksKeep(db, db.drivers[d := db.drivers[d].(status := Offline)]);
        }
      case MarkBusy(d) => ParksKeep(db, WithStatus(db.drivers, d, {Online}, Busy));
    }
  }

  /** Every transaction, with any arguments, keeps the tables consistent. */
  lemma ApplyKeeps(db: Db, a: Action)
    requires Consistent(db)
    ensures Consistent(Apply(db, a))
  {
    match a {
      case Reserve(bid) => AssignKeeps(db, bid);
      case Confirm(o, passenger) => ConfirmKeeps(db, o, passenger);
      case Free(o, d) => ReleaseKeeps(db, o, d);
      case Drive(user, o, to, finalPrice) => MoveKeeps(db, user, o, to, finalPrice);
      case Finish(user, o) =>
        if CanComplete(db, user, o) {
          MoveKeeps(db, user, o, Completed, ChargedPrice(db.orders[o]));
        }
      case PassengerCancel(o, passenger) => CancelKeeps(db, o, passenger);
      case BeginSearch(o) => SearchKeeps(db, o);
      case Fail(o) => SearchKeeps(db, o);
      case NewOrder(o, row) =>
        if o !in db.orders && Fresh(row) {
          NewOrderKeeps(db, o, row);
        }
      case _ => OthersKeep(db, a);
    }
  }

  lemma {:induction false} RunKeeps(db: Db, actions: seq<Action>)
    requires Consistent(db)
    ensures Consistent(Run(db, actions))
    decreases |actions|
  {
    if actions != [] {
      ApplyKeeps(db, actions[0]);
      RunKeeps(Apply(db, actions[0]), actions[1..]);
    }
  }

  // ----- what the automaton means for a history -----

  lemma {:induction false} ReplayPrefix(history: seq<Event>, passenger: Id, n: nat)
    requires n <= |history| && Replay(history, passenger).Some?
    ensures Replay(history[..n], passenger).Some?
    ensures n < |history| ==>
      Replay(history[..n + 1], passenger) == Next(Replay(history[..n], passenger).value, history[n], passenger)
      && Replay(history[..n + 1], passenger).Some?
  {
    if n == |history| {
      assert history[..n] == history;
    } else if n == |history| - 1 {
      assert history[..n + 1] == history;
    } else {
      var shorter := history[..|history| - 1];
      ReplayPrefix(shorter, passenger, n);
      assert shorter[..n] == history[..n] && shorter[..n + 1] == history[..n + 1];
    }
  }

  /** Once the price is settled or the order is over, an order only moves along its trip. */
  lemma {:induction false} SettledOnlyMoves(history: seq<Event>, passenger: Id, n: nat, j: nat)
    requires n <= j < |history| && Replay(history, passenger).Some?
    requires var phase := Replay(history[..n], passenger); phase.Some? && (phase.value.Firm? || phase.value.Closed?)
    ensures history[j].Moved?
    ensures var phase := Replay(history[..j], passenger); phase.Some? && (phase.value.Firm? || phase.value.Closed?)
    decreases j
  {
    ReplayPrefix(history, passenger, j);
    if n < j {
      SettledOnlyMoves(history, passenger, n, j - 1);
      ReplayPrefix(history, passenger, j - 1);
    }
  }

  /** A pending reservation is resolved by the event after it and by nothing else: its own passenger accepts
      before it expires, its driver is released, or the order is cancelled; after the first and the last of
      these no driver is ever released or reserved again. */
  lemma ReservationResolvedOnce(history: seq<Event>, passenger: Id, k: nat)
    requires Replay(history, passenger).Some?
    requires k + 1 < |history| && history[k].Reserved? && history[k].expires.Some?
    ensures var next := history[k + 1];
            || (next.PriceConfirmed? && next.passenger == passenger && next.at < history[k].expires.value)
            || next == Released(history[k].driver)
            || next == Moved(Cancelled)
    ensures !history[k + 1].Released? ==> forall j :: k + 1 < j < |history| ==> history[j].Moved?
  {
    ReplayPrefix(history, passenger, k);
    ReplayPrefix(history, passenger, k + 1);
    if !history[k + 1].Released? {
      forall j | k + 1 < j < |history|
        ensures history[j].Moved?
      {
        SettledOnlyMoves(history, passenger, k + 2, j);
      }
    }
  }

  /** Confirmations and releases only ever resolve the reservation right before them. */
  lemma ResolutionFollowsReservation(history: seq<Event>, passenger: Id, k: nat)
    requires Replay(history, passenger).Some?
    requires k < |history| && (history[k].PriceConfirmed? || history[k].Released?)
    ensures k > 0 && history[k - 1].Reserved? && history[k - 1].expires.Some?
    ensures history[k].Released? ==> history[k].driver == history[k - 1].driver
  {
    ReplayPrefix(history, passenger, k);
    if k > 0 {
      ReplayPrefix(history, passenger, k - 1);
    }
  }

  /** While a driver is not released, the order is his or over. */
  lemma {:induction false} DriverKept(history: seq<Event>, passenger: Id, i: nat, n: nat)
    requires i < n <= |history| && Replay(history, passenger).Some? && history[i].Reserved?
    requires forall k :: i < k < n ==> history[k] != Released(history[i].driver)
    ensures var phase := Replay(history[..n], passenger);
            phase.Some? && !phase.value.Open?
            && (phase.value.Held? ==> phase.value.driver == history[i].driver)
    decreases n
  {
    ReplayPrefix(history, passenger, n - 1);
    if i < n - 1 {
      DriverKept(history, passenger, i, n - 1);
    }
  }

  /** One driver per search: between two reservations of an order the first driver was released. */
  lemma OneDriverPerSearch(history: seq<Event>, passenger: Id, i: nat, j: nat)
    requires Replay(history, passenger).Some?
    requires i < j < |history| && history[i].Reserved? && history[j].Reserved?
    ensures exists k :: i < k < j && history[k] == Released(history[i].driver)
  {
    ReplayPrefix(history, passenger, j);
    if forall k :: i < k < j ==> history[k] != Released(history[i].driver) {
      DriverKept(history, passenger, i, j);
      assert false;
    }
  }

  // ----- statuses and versions -----

  predicate FollowsTable(before: Order, after: Order, a: Action) {
    && (CanTransition(before.status, after.status)
        || (before.status == DriverAssigned && after.status == Searching && a.Free?))
    && (Terminal(before.status) ==> after.status == before.status)
  }

  lemma ChangeFollowsTable(before: Order, after: Order, e: Event)
    requires Changes(before, after, e)
    ensures CanTransition(before.status, after.status)
            || (before.status == DriverAssigned && after.status == Searching && e.Released?)
    ensures Terminal(before.status) ==> after.status == before.status
  {
  }

  lemma EdgeFollowsTable(before: Order, after: Order, a: Action, o: Id, now: Instant)
    requires Edge(before, after, a, o, now)
    ensures FollowsTable(before, after, a)
  {
    if after != before {
      var e :| after.history == before.history + [e] && Leaves(a, o, e, now) && Changes(before, after, e);
      ChangeFollowsTable(before, after, e);
    }
  }

  /** One transaction changes a status along the table, except that a release returns to searching. */
  lemma StatusFollowsTable(db: Db, a: Action, o: Id)
    requires o in db.orders
    ensures o in Apply(db, a).orders && FollowsTable(db.orders[o], Apply(db, a).orders[o], a)
  {
    ActionEdge(db, a, o);
    EdgeFollowsTable(db.orders[o], Apply(db, a).orders[o], a, o, db.now);
  }

  /** A terminal status never changes again. */
  lemma {:induction false} TerminalForever(db: Db, actions: seq<Action>, o: Id)
    requires o in db.orders && Terminal(db.orders[o].status)
    ensures o in Run(db, actions).orders && Run(db, actions).orders[o].status == db.orders[o].status
    decreases |actions|
  {
    if actions != [] {
      StatusFollowsTable(db, actions[0], o);
      TerminalForever(Apply(db, actions[0]), actions[1..], o);
    }
  }

  /** Unchanged, or one version up and one event further. */
  predicate OneFurther(before: Order, after: Order) {
    || after == before
    || (after.version == before.version + 1 && |after.history| == |before.history| + 1
        && before.history == after.history[..|before.history|])
  }

  lemma EdgeGoesOneFurther(before: Order, after: Order, a: Action, o: Id, now: Instant)
    requires Edge(before, after, a, o, now)
    ensures OneFurther(before, after)
  {
  }

  /** A transaction that changes a row raises its version by one and appends one event. */
  lemma ChangeRaisesVersion(db: Db, a: Action, o: Id)
    requires o in db.orders
    ensures o in Apply(db, a).orders && OneFurther(db.orders[o], Apply(db, a).orders[o])
  {
    ActionEdge(db, a, o);
    EdgeGoesOneFurther(db.orders[o], Apply(db, a).orders[o], a, o, db.now);
  }

  lemma {:induction false} VersionsOnlyGrow(db: Db, actions: seq<Action>, o: Id)
    requires o in db.orders
    ensures o in Run(db, actions).orders && db.orders[o].version <= Run(db, actions).orders[o].version
    decreases |actions|
  {
    if actions != [] {
      ChangeRaisesVersion(db, actions[0], o);
      VersionsOnlyGrow(Apply(db, actions[0]), actions[1..], o);
    }
  }

  /** Of all transitions built from one read of an order at most one is ever applied, whatever runs in between. */
  lemma OneTransitionPerRead(db: Db, read: Order, first: Transition, second: Transition, finalPrice: Option<int>, between: seq<Action>)
    requires TransitionFrom(first.order, read, first.to) == Some(first)
    requires TransitionFrom(first.order, read, second.to) == Some(second)
    requires CanUpdate(db, first)
    ensures !CanUpdate(Run(Update(db, first, finalPrice), between), second)
  {
    VersionsOnlyGrow(Update(db, first, finalPrice), between, first.order);
  }

  /** A driver's transition that ends an order puts a working driver online. He is then free exactly when the order was
      under way, or he had none: ending an order once more says nothing about his next one. */
  lemma EndFreesDriverIff(db: Db, user: Id, o: Id, to: OrderStatus, finalPrice: Option<int>)
    requires Consistent(db) && CanMove(db, user, o, to) && (to == Completed || to == Cancelled)
    requires db.drivers[db.orders[o].driver.value].status in {Busy, Online}
    ensures var d, after := db.orders[o].driver.value, Move(db, user, o, to, finalPrice);
            && after.drivers[d].status == Online
            && (!HasActiveOrder(after.orders, d) <==> Active(db.orders[o].status) || !HasActiveOrder(db.orders, d))
  {
    var d, after := db.orders[o].driver.value, Move(db, user, o, to, finalPrice);
    if p :| p in after.orders && after.orders[p].driver == Some(d) && Active(after.orders[p].status) {
      assert p != o && db.orders[p] == after.orders[p];
    }
    if p :| p in db.orders && db.orders[p].driver == Some(d) && Active(db.orders[p].status) && p != o {
      assert after.orders[p] == db.orders[p];
    }
  }

  // ----- every reachable database -----

  const EMPTY: Db := Db(0, map[], map[], map[])

  /** In every reachable database each order's history is a legal life, nobody drives two orders, and a running
      order with a driver belongs to the current park of that driver. */
  lemma ReachableIsConsistent(actions: seq<Action>)
    ensures Consistent(Run(EMPTY, actions))
  {
    RunKeeps(EMPTY, actions);
  }
}
