/** The transactions as they run on the tables, statement by statement. Each method leaves the tables as its
    specification in `Database` says, and reports what the source reports. */
module OrderTables {
  import opened Prelude
  import opened Orders
  import opened Database

  /** The earliest to expire of `all`, in that order, and the rest of them. */
  ghost predicate Picked(orders: map<Id, Order>, ids: seq<Id>, rest: set<Id>, all: set<Id>) {
    && rest <= all && |ids| + |rest| == |all| && NoDuplicates(ids)
    && (forall o :: o in all ==> o in orders && orders[o].expires.Some?)
    && (forall i :: 0 <= i < |ids| ==> ids[i] in all && ids[i] !in rest)
    && (forall o :: o in all ==> o in rest || o in ids)
    && (forall i, j :: 0 <= i < j < |ids| ==> ExpiresBefore(orders, ids[i], ids[j]))
    && (forall i, o :: 0 <= i < |ids| && o in rest ==> ExpiresBefore(orders, ids[i], o))
  }

  lemma PickOne(orders: map<Id, Order>, ids: seq<Id>, rest: set<Id>, all: set<Id>, first: Id)
    requires Picked(orders, ids, rest, all) && first in rest
    requires forall o :: o in rest ==> ExpiresBefore(orders, first, o)
    ensures Picked(orders, ids + [first], rest - {first}, all)
  {
    assert (ids + [first])[|ids|] == first;
    assert forall o :: o in ids ==> o in ids + [first];
  }

  class OrderTables {
    var now: Instant
    var orders: map<Id, Order>
    var drivers: map<Id, Driver>
    var tariffs: map<Id, Tariff>

    constructor ()
      ensures State() == Db(0, map[], map[], map[])
    {
      now, orders, drivers, tariffs := 0, map[], map[], map[];
    }

    ghost function State(): Db
      reads this
    {
      Db(now, orders, drivers, tariffs)
    }

    method MarkOrderSearching(o: Id) returns (found: bool)
      modifies this`orders
      ensures State() == StartSearch(old(State()), o) && found == CanStartSearch(old(State()), o)
    {
      if o !in orders {
        return false;
      }
      var row := orders[o];
      if (row.status != Created && row.status != Searching) || row.driver.Some? {
        return false;
      }
      orders := orders[o := Logged(row.(status := Searching), SearchStarted)];
      return true;
    }

    method FailOrder(o: Id) returns (found: bool)
      modifies this`orders
      ensures State() == GiveUp(old(State()), o) && found == CanGiveUp(old(State()), o)
    {
      if o !in orders || orders[o].status != Searching || orders[o].driver.Some? {
        return false;
      }
      orders := orders[o := Logged(orders[o].(status := Failed), GaveUp)];
      return true;
    }

    /** ORDER BY priority DESC, id DESC LIMIT 1, as a scan that keeps the best row seen. */
    method BestTariff(d: Driver, o: Order) returns (best: Option<Tariff>)
      requires KeyedById(tariffs)
      ensures best == TopTariff(tariffs, d, o)
      ensures best.Some? ==> IsTop(tariffs, d, o, best.value.id)
      ensures best.None? <==> forall j :: j in tariffs ==> !Matches(tariffs[j], d, o)
    {
      best := None;
      var rest := tariffs.Keys;
      while rest != {}
        invariant rest <= tariffs.Keys
        invariant best.Some? ==>
          best.value.id in tariffs && tariffs[best.value.id] == best.value && Matches(best.value, d, o)
        invariant forall j :: j in tariffs && j !in rest && Matches(tariffs[j], d, o) ==>
          best.Some? && !Higher(tariffs[j], best.value)
        decreases rest
      {
        var i :| i in rest;
        rest := rest - {i};
        if Matches(tariffs[i], d, o) && (best.None? || Higher(tariffs[i], best.value)) {
          best := Some(tariffs[i]);
        }
      }
      if best.Some? {
        TopIsUnique(tariffs, d, o, best.value.id);
      }
    }

    method GetCandidateFare(o: Id, d: Id) returns (fare: Option<Fare>)
      requires KeyedById(tariffs)
      ensures fare == CandidateFare(State(), o, d)
    {
      if o !in orders || d !in drivers || orders[o].status != Searching {
        return None;
      }
      var best := BestTariff(drivers[d], orders[o]);
      if best.None? || orders[o].route.None? {
        return None;
      }
      return Some(Fare(best.value, orders[o].route.value));
    }

    method AssignDriver(b: Bid) returns (ok: bool)
      requires KeyedById(tariffs)
      modifies this`orders
      ensures State() == Assign(old(State()), b) && ok == CanAssign(old(State()), b)
    {
      if b.driver !in drivers || b.order !in orders {
        return false;
      }
      var d, row := drivers[b.driver], orders[b.order];
      if row.status != Searching || row.driver.Some? || row.route != Some(b.fare.route) {
        return false;
      }
      if d.status != Online || !d.verified || !b.eligible || HasActiveOrder(orders, b.driver) {
        return false;
      }
      var top := BestTariff(d, row);
      if top.None? || top.value.id != b.fare.tariff.id || top.value.updatedAt != b.fare.tariff.updatedAt || b.price <= 0 {
        if b.fare.tariff.id in tariffs && IsTop(tariffs, d, row, b.fare.tariff.id) {
          TopIsUnique(tariffs, d, row, b.fare.tariff.id);
        }
        return false;
      }
      row := FillReservation(b, row, d, top.value);
      orders := orders[b.order := row];
      return true;
    }

    /** The columns that the statement sets, and its event. */
    method FillReservation(b: Bid, before: Order, d: Driver, top: Tariff) returns (row: Order)
      requires b.order in orders && orders[b.order] == before && b.driver in drivers && drivers[b.driver] == d
      requires TopTariff(tariffs, d, before) == Some(top)
      ensures row == AssignedRow(State(), b)
    {
      row := before.(status := DriverAssigned, driver := Some(b.driver), park := d.park);
      row := row.(assignedTariff := Some(top.id), snapshot := Some(top), proposed := Some(b.price));
      var event;
      if b.needsConfirmation {
        row := row.(confirmation := Some(Pending), agreed := None, expires := Some(b.expires));
        event := Reserved(b.driver, Some(b.expires));
      } else {
        row := row.(confirmation := Some(Confirmed), expires := None);
        row := row.(agreed := if row.fareMode == FixedQuote then Some(b.price) else None);
        event := Reserved(b.driver, None);
      }
      row := Logged(row, event);
    }

    method ConfirmDriverPrice(o: Id, passenger: Id) returns (ok: bool)
      modifies this`orders
      ensures State() == ConfirmPrice(old(State()), o, passenger) && ok == CanConfirm(old(State()), o, passenger)
    {
      if o !in orders {
        return false;
      }
      var row := orders[o];
      if row.passenger != passenger || row.status != DriverAssigned || row.confirmation != Some(Pending) {
        return false;
      }
      if row.expires.None? || row.expires.value <= now || row.proposed.None? || row.proposed.value <= 0 {
        return false;
      }
      row := row.(confirmation := Some(Confirmed));
      row := row.(agreed := if row.fareMode == FixedQuote then row.proposed else None);
      orders := orders[o := Logged(row, PriceConfirmed(passenger, now))];
      return true;
    }

    method SetStatus(d: Id, from: set<DriverStatus>, to: DriverStatus) returns (found: bool)
      modifies this`drivers
      ensures drivers == WithStatus(old(drivers), d, from, to)
      ensures found <==> d in old(drivers) && old(drivers)[d].status in from
    {
      found := d in drivers && drivers[d].status in from;
      if found {
        drivers := drivers[d := drivers[d].(status := to)];
      }
    }

    method ReleaseDriverReservation(o: Id, d: Id) returns (ok: bool)
      modifies this`orders, this`drivers
      ensures State() == Release(old(State()), o, d) && ok == CanRelease(old(State()), o, d)
    {
      if o !in orders {
        return false;
      }
      var row := orders[o];
      if row.driver != Some(d) || row.status != DriverAssigned || row.confirmation != Some(Pending) {
        return false;
      }
      row := row.(status := Searching, driver := None, park := None, assignedTariff := None, snapshot := None);
      row := row.(confirmation := None, proposed := None, expires := None, agreed := None);
      row := row.(declined := row.declined + [d]);
      orders := orders[o := Logged(row, Released(d))];
      var _ := SetStatus(d, {Busy}, Online);
      return true;
    }

    method TransitionOrder(t: Transition, finalPrice: Option<int>) returns (changed: bool)
      modifies this`orders
      ensures State() == Update(old(State()), t, finalPrice) && changed == CanUpdate(old(State()), t)
    {
      if t.order !in orders {
        return false;
      }
      var row := orders[t.order];
      if row.status != t.from || row.version != t.expectedVersion {
        return false;
      }
      if row.status == DriverAssigned && row.confirmation == Some(Pending) && t.to != Cancelled {
        return false;
      }
      row := row.(status := t.to);
      if t.to == Completed {
        row := row.(finalPrice := finalPrice);
      }
      orders := orders[t.order := Logged(row, Moved(t.to))];
      return true;
    }

    /** The driver's transaction. A failure after the update would roll it back; nothing after it can fail here. */
    method TransitionOrderByUser(user: Id, o: Id, to: OrderStatus, finalPrice: Option<int>) returns (ok: bool)
      modifies this`orders, this`drivers
      ensures State() == Move(old(State()), user, o, to, finalPrice) && ok == CanMove(old(State()), user, o, to)
    {
      if o !in orders || orders[o].driver.None? {
        return false;
      }
      var driver := orders[o].driver.value;
      if driver !in drivers || drivers[driver].user != user {
        return false;
      }
      var t := TransitionFrom(o, orders[o], to);
      if t.None? {
        return false;
      }
      ok := TransitionOrder(t.value, finalPrice);
      if ok && (to == Cancelled || to == Completed) {
        var _ := SetStatus(driver, {Busy, Online}, Online);
      }
    }

    method CompleteOrderByUser(user: Id, o: Id) returns (ok: bool)
      modifies this`orders, this`drivers
      ensures State() == Complete(old(State()), user, o) && ok == CanComplete(old(State()), user, o)
      ensures ok ==> o in old(orders) && o in orders && orders[o].finalPrice.Some?
                     && orders[o].finalPrice == (if old(orders)[o].finalPrice.Some? then old(orders)[o].finalPrice else old(orders)[o].estimated)
    {
      if o !in orders {
        return false;
      }
      var price := orders[o].finalPrice;
      if price.None? {
        price := orders[o].estimated;
      }
      if price.None? {
        return false;
      }
      ok := TransitionOrderByUser(user, o, Completed, price);
    }

    method CancelPassengerOrder(o: Id, passenger: Id) returns (ok: bool)
      modifies this`orders, this`drivers
      ensures State() == Cancel(old(State()), o, passenger) && ok == CanCancel(old(State()), o, passenger)
    {
      if o !in orders || orders[o].passenger != passenger {
        return false;
      }
      var row := orders[o];
      if row.status !in {Searching, DriverAssigned, DriverArriving, DriverWaiting} {
        return false;
      }
      orders := orders[o := Logged(row.(status := Cancelled), Moved(Cancelled))];
      if row.driver.Some? {
        var _ := SetStatus(row.driver.value, {Busy}, Online);
      }
      return true;
    }

    /** ORDER BY price_confirmation_expires_at LIMIT n. */
    method ListExpiredPriceConfirmations(limit: nat) returns (ids: seq<Id>)
      ensures ListsEarliest(State(), ids, limit)
    {
      ids := [];
      var rest := set o | o in orders && Expired(Db(now, orders, drivers, tariffs), o);
      ghost var all := rest;
      while |ids| < limit && rest != {}
        invariant Picked(orders, ids, rest, all) && |ids| <= limit
        decreases rest
      {
        var first := EarliestToExpire(rest);
        PickOne(orders, ids, rest, all, first);
        ids := ids + [first];
        rest := rest - {first};
      }
    }

    method EarliestToExpire(ids: set<Id>) returns (first: Id)
      requires ids != {} && forall o :: o in ids ==> o in orders && orders[o].expires.Some?
      ensures first in ids && forall o :: o in ids ==> ExpiresBefore(orders, first, o)
    {
      first :| first in ids;
      var rest := ids - {first};
      while rest != {}
        invariant rest <= ids && first in ids
        invariant forall o :: o in ids && o !in rest ==> ExpiresBefore(orders, first, o)
        decreases rest
      {
        var o :| o in rest;
        rest := rest - {o};
        if orders[o].expires.value < orders[first].expires.value {
          first := o;
        }
      }
    }

    /** The order of the answer is not modelled. */
    method ListSearchingOrders(limit: nat) returns (ids: seq<Id>)
      ensures Lists(ids, SearchingOrders(State()), limit)
    {
      ids := [];
      var rest := set o | o in orders && orders[o].status == Searching && orders[o].driver.None?;
      ghost var all := rest;
      while |ids| < limit && rest != {}
        invariant rest <= all == SearchingOrders(State()) && |ids| + |rest| == |all| && |ids| <= limit
        invariant NoDuplicates(ids) && forall i :: 0 <= i < |ids| ==> ids[i] in all && ids[i] !in rest
        decreases rest
      {
        var o :| o in rest;
        ids := ids + [o];
        rest := rest - {o};
      }
    }

    method MarkDriverBusy(d: Id) returns (found: bool)
      modifies this`drivers
      ensures State() == Apply(old(State()), MarkBusy(d))
      ensures found <==> d in old(drivers) && old(drivers)[d].status == Online
    {
      found := SetStatus(d, {Online}, Busy);
    }

    /** `eligible` answers for the driver's park being active and a verified car. */
    method MarkOnline(d: Id, eligible: bool) returns (found: bool)
      modifies this`drivers
      ensures State() == Apply(old(State()), GoOnline(d, eligible))
      ensures found <==> eligible && d in old(drivers) && old(drivers)[d].park.Some? && old(drivers)[d].verified
                         && old(drivers)[d].status in {Offline, Paused, Online}
    {
      if !eligible || d !in drivers || drivers[d].park.None? || !drivers[d].verified {
        return false;
      }
      found := SetStatus(d, {Offline, Paused, Online}, Online);
    }

    method MarkOffline(d: Id) returns (found: bool)
      modifies this`drivers
      ensures State() == Apply(old(State()), GoOffline(d))
      ensures found <==> d in old(drivers) && !HasActiveOrder(old(orders), d)
    {
      if d !in drivers || HasActiveOrder(orders, d) {
        return false;
      }
      drivers := drivers[d := drivers[d].(status := Offline)];
      return true;
    }
  }
}
