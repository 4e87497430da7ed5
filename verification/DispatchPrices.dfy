/** The price at which an accepting driver is reserved is the documented fare of the trip, over every run of dispatch:
    AcceptOffer of internal/dispatch/service.go. */
module DispatchPrices {
  import opened Prelude
  import opened TripPricing
  import opened Database
  import opened Reservations
  import opened Prices
  import opened Dispatch
  import opened DispatchSafety
  import opened DispatchProgress

  ghost predicate Priced(db: Db) {
    Consistent(db) && AllPriced(db.orders)
  }

  lemma QuietActionKeepsPriced(db: Db, a: Action)
    requires Priced(db) && !a.Reserve?
    ensures Priced(Apply(db, a))
  {
    ApplyKeeps(db, a);
    forall o | o in Apply(db, a).orders
      ensures RowPriced(Apply(db, a).orders[o])
    {
      if o in db.orders {
        assert RowOk(db.orders[o]);
      }
      RowStaysPriced(db, a, o);
    }
  }

  /** What a driver who accepts bids was read from the tables and priced. */
  lemma BidIsRead(s: Desk, o: Id, d: Id, eligible: bool)
    requires Consistent(s.db) && AcceptBid(s, o, d, eligible).Some?
    ensures var bid := AcceptBid(s, o, d, eligible).value; bid.order == o && bid.driver == d && FareRead(s.db, bid.fare, bid.price)
  {
    FareIsRead(s.db, o, d, AcceptBid(s, o, d, eligible).value.price);
  }

  lemma AssigningKeepsPriced(db: Db, bid: Bid)
    requires Priced(db) && FareRead(db, bid.fare, bid.price)
    ensures Priced(Apply(db, Reserve(bid)))
  {
    AssignKeeps(db, bid);
    if CanAssign(db, bid) {
      AssignStoresThePricedTariff(db, bid);
    }
  }

  lemma AcceptingKeepsPriced(s: Desk, o: Id, d: Id, eligible: bool)
    requires Priced(s.db)
    ensures Priced(Accept(s, o, d, eligible).db)
  {
    var bid := AcceptBid(s, o, d, eligible);
    if bid.Some? && CanAssign(s.db, bid.value) {
      BidIsRead(s, o, d, eligible);
      AssigningKeepsPriced(s.db, bid.value);
      TakenIsTransactions(s, bid.value);
      QuietActionKeepsPriced(Apply(s.db, Reserve(bid.value)), MarkBusy(bid.value.driver));
    }
  }

  lemma StepKeepsPriced(s: Desk, step: Step)
    requires Priced(s.db)
    ensures Priced(Do(s, step).db)
  {
    if step.AcceptOffer? {
      AcceptingKeepsPriced(s, step.order, step.driver, step.eligible);
    } else {
      var a, b := StepIsTransactions(s, step);
      QuietActionKeepsPriced(s.db, a);
      QuietActionKeepsPriced(Apply(s.db, a), b);
    }
  }

  lemma {:induction false} RunKeepsPriced(s: Desk, steps: seq<Step>)
    requires Priced(s.db)
    ensures Priced(DoAll(s, steps).db)
    decreases |steps|
  {
    if steps != [] {
      StepKeepsPriced(s, steps[0]);
      RunKeepsPriced(Do(s, steps[0]), steps[1..]);
    }
  }

  /** In every state that dispatch can get into, an order with a driver carries the tariff it was priced with, its
      proposed price is the documented fare of that tariff on the order's own distance and duration, and a confirmed fixed
      quote is agreed at that price. */
  lemma EveryReservationIsPriced(config: NormalConfig, steps: seq<Step>, o: Id)
    requires var s := DoAll(Opening(config), steps); o in s.db.orders && s.db.orders[o].driver.Some?
    ensures var row := DoAll(Opening(config), steps).db.orders[o];
            && RowPriced(row)
            && row.snapshot.Some? && row.route.Some? && row.proposed.Some? && row.proposed.value > 0
            && IsFare(row.snapshot.value.rates, row.route.value.distance, row.route.value.duration, row.proposed.value)
            && (row.confirmation == Some(Confirmed) && row.fareMode == FixedQuote ==> row.agreed == row.proposed)
  {
    RunKeepsPriced(Opening(config), steps);
    var row := DoAll(Opening(config), steps).db.orders[o];
    TripPriceIsTheFare(row.snapshot.value.rates, row.route.value.distance, row.route.value.duration, row.proposed.value);
  }

  // ----- who is asked -----

  lemma QuietActionKeepsAsked(db: Db, a: Action)
    requires AllAsked(db.orders) && !a.Reserve?
    ensures AllAsked(Apply(db, a).orders)
  {
    forall o | o in Apply(db, a).orders
      ensures RowAsked(Apply(db, a).orders[o])
    {
      ActionStaysAsked(db, a, o);
    }
  }

  lemma StepKeepsAsked(s: Desk, step: Step)
    requires AllAsked(s.db.orders)
    ensures AllAsked(Do(s, step).db.orders)
  {
    if step.AcceptOffer? {
      AcceptingKeepsAsked(s, step.order, step.driver, step.eligible);
    } else {
      var a, b := StepIsTransactions(s, step);
      QuietActionKeepsAsked(s.db, a);
      QuietActionKeepsAsked(Apply(s.db, a), b);
    }
  }

  lemma AcceptingKeepsAsked(s: Desk, o: Id, d: Id, eligible: bool)
    requires AllAsked(s.db.orders)
    ensures AllAsked(Accept(s, o, d, eligible).db.orders)
  {
    var bid := AcceptBid(s, o, d, eligible);
    if bid.Some? && CanAssign(s.db, bid.value) {
      AssignStaysAsked(s.db, bid.value);
      TakenIsTransactions(s, bid.value);
      QuietActionKeepsAsked(Assign(s.db, bid.value), MarkBusy(bid.value.driver));
    }
  }

  lemma {:induction false} RunKeepsAsked(s: Desk, steps: seq<Step>)
    requires AllAsked(s.db.orders)
    ensures AllAsked(DoAll(s, steps).db.orders)
    decreases |steps|
  {
    if steps != [] {
      StepKeepsAsked(s, steps[0]);
      RunKeepsAsked(Do(s, steps[0]), steps[1..]);
    }
  }

  /** Over every run of dispatch a passenger is asked for the price of each reservation of his order, and of a park's order
      nobody is. */
  lemma EveryPassengerIsAsked(config: NormalConfig, steps: seq<Step>)
    ensures AllAsked(DoAll(Opening(config), steps).db.orders)
  {
    RunKeepsAsked(Opening(config), steps);
  }
}
