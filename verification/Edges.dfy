/** A transaction changes an order in one of six ways, each with its own event; everything else about transactions and
    single rows is read off these edges. */
module Edges {
  import opened Prelude
  import opened Orders
  import opened Database

  predicate MayMove(row: Order, to: OrderStatus) {
    || (CanTransition(row.status, to) && row.driver.Some? && (AwaitsPassenger(row) ==> to == Cancelled))
    || (to == Cancelled && row.status in {Searching, DriverAssigned, DriverArriving, DriverWaiting})
  }

  /** Which transaction leaves which event. */
  predicate Leaves(a: Action, o: Id, e: Event, now: Instant) {
    match e
    case SearchStarted => a == BeginSearch(o)
    case GaveUp => a == Fail(o)
    case Reserved(d, _) => a.Reserve? && a.bid.order == o && a.bid.driver == d
    case PriceConfirmed(passenger, at) => a == Confirm(o, passenger) && at == now
    case Released(d) => a == Free(o, d)
    case Moved(to) =>
      || (a.Drive? && a.o == o && a.to == to)
      || (a.Finish? && a.o == o && to == Completed)
      || (a.PassengerCancel? && a.o == o && to == Cancelled)
  }

  /** A reservation fills in the driver and what belongs to him, and touches nothing else. */
  function Reserving(before: Order, after: Order): Order {
    before.(status := DriverAssigned, driver := after.driver, park := after.park, assignedTariff := after.assignedTariff,
            snapshot := after.snapshot, confirmation := after.confirmation, proposed := after.proposed,
            agreed := after.agreed, expires := after.expires, version := after.version, history := after.history)
  }

  /** One row before and after an event. */
  predicate Changes(before: Order, after: Order, e: Event) {
    match e
    case SearchStarted =>
      (before.status == Created || before.status == Searching) && before.driver.None?
      && after == Logged(before.(status := Searching), e)
    case GaveUp =>
      before.status == Searching && before.driver.None? && after == Logged(before.(status := Failed), e)
    case Reserved(d, expires) =>
      before.status == Searching && before.driver.None? && after.driver == Some(d) && after.expires == expires
      && after.confirmation == Some(if expires.Some? then Pending else Confirmed)
      && after == Reserving(before, after)
    case PriceConfirmed(passenger, at) =>
      AwaitsPassenger(before) && passenger == before.passenger && before.expires.Some? && at < before.expires.value
      && after == Logged(before.(confirmation := Some(Confirmed),
                                 agreed := if before.fareMode == FixedQuote then before.proposed else None), e)
    case Released(d) =>
      AwaitsPassenger(before) && before.driver == Some(d) && after == ReleasedRow(before, d)
    case Moved(to) =>
      MayMove(before, to) && after == Logged(before.(status := to, finalPrice := after.finalPrice), e)
      && (to != Completed ==> after.finalPrice == before.finalPrice)
  }

  /** What a completion charges: by the order itself its final price, or else its estimate; by a transition with a price
      that price. */
  predicate Charges(before: Order, after: Order, a: Action, e: Event) {
    e == Moved(Completed) ==>
      if a.Finish? then
        after.finalPrice.Some? && after.finalPrice == (if before.finalPrice.Some? then before.finalPrice else before.estimated)
      else a.Drive? && after.finalPrice == a.finalPrice
  }

  /** The row is as it was, or one event and one version further. */
  ghost predicate Edge(before: Order, after: Order, a: Action, o: Id, now: Instant) {
    after == before
    || (after.version == before.version + 1
        && exists e :: after.history == before.history + [e] && Leaves(a, o, e, now) && Changes(before, after, e)
                       && Charges(before, after, a, e))
  }

  lemma SearchEdge(db: Db, p: Id, o: Id)
    requires o in db.orders
    ensures Edge(db.orders[o], StartSearch(db, p).orders[o], BeginSearch(p), o, db.now)
  {
    if CanStartSearch(db, p) && p == o {
      assert Changes(db.orders[o], StartSearch(db, p).orders[o], SearchStarted);
    }
  }

  lemma GiveUpEdge(db: Db, p: Id, o: Id)
    requires o in db.orders
    ensures Edge(db.orders[o], GiveUp(db, p).orders[o], Fail(p), o, db.now)
  {
    if CanGiveUp(db, p) && p == o {
      assert Changes(db.orders[o], GiveUp(db, p).orders[o], GaveUp);
    }
  }

  lemma AssignEdge(db: Db, b: Bid, o: Id)
    requires o in db.orders
    ensures Edge(db.orders[o], Assign(db, b).orders[o], Reserve(b), o, db.now)
  {
    if CanAssign(db, b) && b.order == o {
      assert Changes(db.orders[o], AssignedRow(db, b), Reserved(b.driver, if b.needsConfirmation then Some(b.expires) else None));
    }
  }

  lemma ConfirmEdge(db: Db, p: Id, passenger: Id, o: Id)
    requires o in db.orders
    ensures Edge(db.orders[o], ConfirmPrice(db, p, passenger).orders[o], Confirm(p, passenger), o, db.now)
  {
    if CanConfirm(db, p, passenger) && p == o {
      assert Changes(db.orders[o], ConfirmPrice(db, p, passenger).orders[o], PriceConfirmed(passenger, db.now));
    }
  }

  lemma ReleaseEdge(db: Db, p: Id, d: Id, o: Id)
    requires o in db.orders
    ensures Edge(db.orders[o], Release(db, p, d).orders[o], Free(p, d), o, db.now)
  {
    if CanRelease(db, p, d) && p == o {
      assert Changes(db.orders[o], ReleasedRow(db.orders[o], d), Event.Released(d));
    }
  }

  lemma MoveChanges(db: Db, user: Id, p: Id, to: OrderStatus, finalPrice: Option<int>)
    requires CanMove(db, user, p, to)
    ensures Changes(db.orders[p], Move(db, user, p, to, finalPrice).orders[p], Moved(to))
    ensures Move(db, user, p, to, finalPrice).orders == db.orders[p := Move(db, user, p, to, finalPrice).orders[p]]
    ensures to == Completed ==> Move(db, user, p, to, finalPrice).orders[p].finalPrice == finalPrice
  {
  }

  lemma MoveEdge(db: Db, user: Id, p: Id, to: OrderStatus, finalPrice: Option<int>, o: Id)
    requires o in db.orders
    ensures Edge(db.orders[o], Move(db, user, p, to, finalPrice).orders[o], Drive(user, p, to, finalPrice), o, db.now)
    ensures to == Completed && p in db.orders && finalPrice.Some?
            && (finalPrice == if db.orders[p].finalPrice.Some? then db.orders[p].finalPrice else db.orders[p].estimated)
            ==> Edge(db.orders[o], Move(db, user, p, to, finalPrice).orders[o], Finish(user, p), o, db.now)
  {
    if CanMove(db, user, p, to) {
      MoveChanges(db, user, p, to, finalPrice);
    }
  }

  lemma FinishEdge(db: Db, user: Id, p: Id, o: Id)
    requires o in db.orders
    ensures Edge(db.orders[o], Complete(db, user, p).orders[o], Finish(user, p), o, db.now)
  {
    if CanComplete(db, user, p) {
      MoveEdge(db, user, p, Completed, ChargedPrice(db.orders[p]), o);
    }
  }

  lemma CancelEdge(db: Db, p: Id, passenger: Id, o: Id)
    requires o in db.orders
    ensures Edge(db.orders[o], Cancel(db, p, passenger).orders[o], PassengerCancel(p, passenger), o, db.now)
  {
    if CanCancel(db, p, passenger) && p == o {
      assert Changes(db.orders[o], Cancel(db, p, passenger).orders[o], Moved(Cancelled));
    }
  }

  lemma ElsewhereKeepsOrders(db: Db, a: Action)
    requires !TouchesOrders(a)
    ensures ApplyElsewhere(db, a).orders == db.orders && ApplyElsewhere(db, a).now >= db.now
  {
  }

  lemma OrderActionEdge(db: Db, a: Action, o: Id)
    requires TouchesOrders(a) && o in db.orders
    ensures o in ApplyToOrder(db, a).orders && Edge(db.orders[o], ApplyToOrder(db, a).orders[o], a, o, db.now)
  {
    match a {
      case BeginSearch(p) => SearchEdge(db, p, o);
      case Fail(p) => GiveUpEdge(db, p, o);
      case Reserve(bid) => AssignEdge(db, bid, o);
      case Confirm(p, passenger) => ConfirmEdge(db, p, passenger, o);
      case Free(p, d) => ReleaseEdge(db, p, d, o);
      case Drive(user, p, to, finalPrice) => MoveEdge(db, user, p, to, finalPrice, o);
      case Finish(user, p) => FinishEdge(db, user, p, o);
      case PassengerCancel(p, passenger) => CancelEdge(db, p, passenger, o);
      case NewOrder(_, _) =>
    }
  }

  /** Every transaction takes every order along an edge. */
  lemma ActionEdge(db: Db, a: Action, o: Id)
    requires o in db.orders
    ensures o in Apply(db, a).orders && Edge(db.orders[o], Apply(db, a).orders[o], a, o, db.now)
  {
    if TouchesOrders(a) {
      OrderActionEdge(db, a, o);
    } else {
      ElsewhereKeepsOrders(db, a);
    }
  }

  lemma OrderActionAdds(db: Db, a: Action, o: Id)
    requires TouchesOrders(a) && o in ApplyToOrder(db, a).orders && o !in db.orders
    ensures a.NewOrder? && a.o == o && Fresh(a.row) && ApplyToOrder(db, a).orders[o] == a.row
  {
  }

  /** And an order that was not there is a fresh one. */
  lemma ActionAdds(db: Db, a: Action, o: Id)
    requires o in Apply(db, a).orders && o !in db.orders
    ensures a.NewOrder? && a.o == o && Fresh(a.row) && Apply(db, a).orders[o] == a.row
  {
    if TouchesOrders(a) {
      OrderActionAdds(db, a, o);
    } else {
      ElsewhereKeepsOrders(db, a);
    }
  }

  lemma OrderActionKeepsClock(db: Db, a: Action)
    requires TouchesOrders(a)
    ensures ApplyToOrder(db, a).now == db.now
  {
  }

  lemma ClockAdvances(db: Db, a: Action)
    ensures Apply(db, a).now >= db.now
  {
    if TouchesOrders(a) {
      OrderActionKeepsClock(db, a);
    } else {
      ElsewhereKeepsOrders(db, a);
    }
  }
}
