/** What an order's columns promise about money, from the reservation to the end: the price of a trip is read once, stored
    with the tariff it came from, and never drifts: internal/repository/dispatch_order_repository.go. */
module Prices {
  import opened Prelude
  import opened TripPricing
  import opened Database
  import opened Edges
  import opened Reservations

  /** An order without a driver carries nothing of a reservation. */
  predicate Blank(row: Order) {
    && row.park.None? && row.assignedTariff.None? && row.snapshot.None?
    && row.confirmation.None? && row.proposed.None? && row.agreed.None? && row.expires.None?
  }

  /** What a row promises about money: with a driver, the snapshot is a tariff of the row's park, class and mode, the
      proposed price is its fare on the row's route, and a confirmed fixed quote is agreed at that price. */
  predicate RowPriced(row: Order) {
    if row.driver.None? then Blank(row)
    else
      && row.snapshot.Some? && row.route.Some? && row.proposed.Some?
      && var t := row.snapshot.value;
      && row.assignedTariff == Some(t.id) && row.park == Some(t.park)
      && row.carClass == Some(t.carClass) && row.fareMode == t.fareMode
      && row.proposed.value > 0
      && TripPrice(t.rates, row.route.value.distance, row.route.value.duration) == Ok(row.proposed.value)
      && row.agreed == (if row.confirmation == Some(Confirmed) && row.fareMode == FixedQuote then row.proposed else None)
  }

  predicate AllPriced(orders: map<Id, Order>) {
    forall o :: o in orders ==> RowPriced(orders[o])
  }

  /** A fare read earlier: its tariff is still there, and unless it was edited since, it is the same. */
  predicate FareRead(db: Db, fare: Fare, price: int) {
    && fare.tariff.id in db.tariffs
    && fare.tariff.updatedAt <= db.tariffs[fare.tariff.id].updatedAt
    && (fare.tariff.updatedAt == db.tariffs[fare.tariff.id].updatedAt ==> db.tariffs[fare.tariff.id] == fare.tariff)
    && price > 0
    && TripPrice(fare.tariff.rates, fare.route.distance, fare.route.duration) == Ok(price)
  }

  /** Whatever tariffs were edited since the fare was read, an assignment that succeeds stores the very tariff that
      was priced, and its price. */
  lemma AssignStoresThePricedTariff(db: Db, b: Database.Bid)
    requires Consistent(db) && FareRead(db, b.fare, b.price) && CanAssign(db, b)
    ensures var row := Assign(db, b).orders[b.order];
            && row.snapshot == Some(b.fare.tariff)
            && row.assignedTariff == Some(b.fare.tariff.id)
            && row.proposed == Some(b.price)
            && row.route == Some(b.fare.route)
            && TopTariff(db.tariffs, db.drivers[b.driver], db.orders[b.order]) == row.snapshot
            && RowPriced(row)
  {
    TopIsUnique(db.tariffs, db.drivers[b.driver], db.orders[b.order], b.fare.tariff.id);
  }

  lemma FareIsRead(db: Db, o: Id, d: Id, price: int)
    requires Consistent(db) && CandidateFare(db, o, d).Some?
    requires var fare := CandidateFare(db, o, d).value;
             price > 0 && TripPrice(fare.tariff.rates, fare.route.distance, fare.route.duration) == Ok(price)
    ensures FareRead(db, CandidateFare(db, o, d).value, price)
  {
  }

  lemma ChangeStaysPriced(before: Order, after: Order, e: Event)
    requires Changes(before, after, e) && !e.Reserved? && RowPriced(before) && PhaseOf(before).Some?
    ensures RowPriced(after)
  {
  }

  lemma EdgeStaysPriced(before: Order, after: Order, a: Action, o: Id, now: Instant)
    requires Edge(before, after, a, o, now) && !a.Reserve? && RowPriced(before) && PhaseOf(before).Some?
    ensures RowPriced(after)
  {
    if after != before {
      var e :| after.history == before.history + [e] && Leaves(a, o, e, now) && Changes(before, after, e);
      ChangeStaysPriced(before, after, e);
    }
  }

  lemma FreshIsPriced(row: Order)
    requires Fresh(row)
    ensures RowPriced(row)
  {
  }

  /** No transaction but an assignment touches the money of a row with a driver, except that a confirmation agrees on
      the proposed price and a release wipes everything. */
  lemma RowStaysPriced(db: Db, a: Action, o: Id)
    requires !a.Reserve? && o in Apply(db, a).orders
    requires o in db.orders ==> RowPriced(db.orders[o]) && PhaseOf(db.orders[o]).Some?
    ensures RowPriced(Apply(db, a).orders[o])
  {
    if o in db.orders {
      ActionEdge(db, a, o);
      EdgeStaysPriced(db.orders[o], Apply(db, a).orders[o], a, o, db.now);
    } else {
      ActionAdds(db, a, o);
      FreshIsPriced(a.row);
    }
  }

  lemma TariffEditStamps(db: Db, t: Tariff, fare: Fare, price: int)
    requires FareRead(db, fare, price) && TariffsStamped(db)
    ensures FareRead(Apply(db, PutTariff(t)), fare, price)
  {
  }

  lemma TariffsStay(db: Db, a: Action)
    requires !a.PutTariff?
    ensures Apply(db, a).tariffs == db.tariffs
  {
  }

  lemma FareStaysRead(db: Db, a: Action, fare: Fare, price: int)
    requires FareRead(db, fare, price) && TariffsStamped(db)
    ensures FareRead(Apply(db, a), fare, price)
  {
    if a.PutTariff? {
      TariffEditStamps(db, a.t, fare, price);
    } else {
      TariffsStay(db, a);
    }
  }

  // ----- who is asked -----

  /** The passenger is asked for the price at every reservation of his own order, and at none of a park's. */
  predicate RowAsked(row: Order) {
    forall i :: 0 <= i < |row.history| && row.history[i].Reserved? ==> (row.history[i].expires.None? <==> row.byPark)
  }

  predicate AllAsked(orders: map<Id, Order>) {
    forall o :: o in orders ==> RowAsked(orders[o])
  }

  lemma ChangeStaysAsked(before: Order, after: Order, e: Event)
    requires Changes(before, after, e) && after.history == before.history + [e] && RowAsked(before)
    requires e.Reserved? ==> (e.expires.None? <==> before.byPark)
    ensures RowAsked(after) && after.byPark == before.byPark
  {
  }

  lemma EdgeStaysAsked(before: Order, after: Order, a: Action, o: Id, now: Instant)
    requires Edge(before, after, a, o, now) && !a.Reserve? && RowAsked(before)
    ensures RowAsked(after) && after.byPark == before.byPark
  {
    if after != before {
      var e :| after.history == before.history + [e] && Leaves(a, o, e, now) && Changes(before, after, e);
      ChangeStaysAsked(before, after, e);
    }
  }

  lemma ActionStaysAsked(db: Db, a: Action, o: Id)
    requires !a.Reserve? && AllAsked(db.orders) && o in Apply(db, a).orders
    ensures RowAsked(Apply(db, a).orders[o]) && (o in db.orders ==> Apply(db, a).orders[o].byPark == db.orders[o].byPark)
  {
    if o in db.orders {
      ActionEdge(db, a, o);
      EdgeStaysAsked(db.orders[o], Apply(db, a).orders[o], a, o, db.now);
    } else {
      ActionAdds(db, a, o);
    }
  }

  lemma AssignStaysAsked(db: Db, b: Database.Bid)
    requires AllAsked(db.orders)
    requires b.order in db.orders ==> b.needsConfirmation == !db.orders[b.order].byPark
    ensures AllAsked(Assign(db, b).orders)
    ensures forall o :: o in db.orders ==> o in Assign(db, b).orders && Assign(db, b).orders[o].byPark == db.orders[o].byPark
  {
    if CanAssign(db, b) {
      var before, after := db.orders[b.order], AssignedRow(db, b);
      assert after.history == before.history + [Reserved(b.driver, if b.needsConfirmation then Some(b.expires) else None)];
    }
  }
}
