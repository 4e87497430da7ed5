/** What a settlement is made of: the order's own price, the rates the order carries, and the books it enters:
    internal/finance/service.go and the transaction of internal/repository/finance_repository.go. */
module Settlements {
  import opened Prelude
  import opened Ledger
  import opened Commission
  import opened Numeric
  import opened Finance
  import opened DriverMoney

  // ----- one settlement -----

  /** The rate that an order carries, in hundredths of a percent: a missing or zero one stands for one percent. */
  function RateOf(rate: Option<int>): int {
    match rate case None => 100 case Some(r) => if r == 0 then 100 else r
  }

  /** The split of the order's own price: the park takes the nearest share at the driver's rate, the driver the rest, and
      the platform the nearest share of what the park took at its own rate. */
  predicate SplitOf(o: Snapshot, s: Split) {
    && o.price.Some? && s.gross == o.price.value
    && s.rate == RateOf(o.driverRate) && s.feeRate == RateOf(Some(o.platformRate))
    && NearestShare(o.price.value, RateOf(o.driverRate), s.commission) && s.net == o.price.value - s.commission
    && NearestShare(s.commission, RateOf(Some(o.platformRate)), s.fee)
    && 0 <= s.fee <= s.commission <= o.price.value
  }

  /** The settlement of an order names it and the account of its driver with its park. */
  predicate SettlementOf(order: Id, o: Snapshot, s: Settlement) {
    s.order == order && o.driver.Some? && s.account == Account(o.driver.value, o.park) && SplitOf(o, s.split)
  }

  lemma FareSplitsRight(o: Snapshot)
    requires Settleable(o)
    ensures var split := SplitFare(o.price.value, DriverRate(o), o.platformRate); split.Ok? && SplitOf(o, split.value)
  {
    var price: Price := o.price.value;
    SplitSucceedsIff(price, DriverRate(o), o.platformRate);
    SplitNamesItsRates(price, DriverRate(o), o.platformRate);
    SplitIsRounded(price, DriverRate(o), o.platformRate);
  }

  /** A first settlement that succeeds writes down, and returns, the order's own split. */
  lemma SettlementSplitsTheFare(b: Books, order: Id, o: Snapshot)
    requires Settle(b, order, o).1.Ok? && order !in b.settlements
    ensures var (after, reply) := Settle(b, order, o);
            SettlementOf(order, o, reply.value) && after.settlements == b.settlements[order := reply.value]
  {
    SettleableRecords(b, order, o);
    FareSplitsRight(o);
    StoredExactly(SplitFare(o.price.value, DriverRate(o), o.platformRate).value);
  }

  /** The driver's rest goes to his account, with a line for the order. */
  predicate PostedToDriver(b: Books, after: Books, s: Settlement) {
    var rest := BalanceOf(b.balances, s.account) + s.split.net;
    && after.now == b.now && after.payouts == b.payouts && after.invoices == b.invoices
    && after.balances == b.balances[s.account := rest]
    && after.ledger == b.ledger + [Line(s.account, s.split.net, rest, Income(s.order))]
  }

  /** The commission goes to the park, and the fee, as an open accrual of now, to the park and to the platform; each line
      carries its owner's balance on. Without a park nothing is posted. */
  predicate PostedToPark(b: Books, after: Books, s: Settlement) {
    match s.account.park
    case None => after.parkBalances == b.parkBalances && after.parkLedger == b.parkLedger && after.fees == b.fees && after.platform == b.platform
    case Some(p) =>
      var commission, fee := s.split.commission, s.split.fee;
      && after.parkBalances == b.parkBalances[p := BalanceOf(b.parkBalances, p) + commission]
      && after.parkLedger == b.parkLedger + [Line(p, commission, Latest(b.parkLedger, p) + commission, s.order)]
      && after.fees == b.fees + [Line(p, fee, Latest(b.fees, p) + fee, Accrual(s.order, None, b.now))]
      && after.platform == b.platform + [Line(p, fee, Latest(b.platform, p) + fee, Some(s.order))]
  }

  lemma ParkIsPosted(b: Books, s: Settlement)
    ensures PostedToPark(b, PostPark(b, s), s)
    ensures PostPark(b, s).(parkBalances := b.parkBalances, parkLedger := b.parkLedger, fees := b.fees, platform := b.platform) == b
  {
  }

  lemma RecordPosts(b: Books, s: Settlement)
    requires s.order !in b.settlements && Record(b, s).1.Ok?
    ensures var after := Record(b, s).0; PostedToDriver(b, after, s) && PostedToPark(b, after, s)
  {
    ParkIsPosted(b, s);
  }

  /** What a first settlement posts, and that it posts nothing else. */
  lemma SettlementPosts(b: Books, order: Id, o: Snapshot)
    requires Settle(b, order, o).1.Ok? && order !in b.settlements
    ensures var (after, reply) := Settle(b, order, o);
            PostedToDriver(b, after, reply.value) && PostedToPark(b, after, reply.value)
  {
    SettleableRecords(b, order, o);
    var split := SplitFare(o.price.value, DriverRate(o), o.platformRate).value;
    RecordPosts(b, Settlement(order, Account(o.driver.value, o.park), split));
  }

  /** The reasons for which an order cannot be settled, the first that applies. */
  lemma SettleRefusals(b: Books, order: Id, o: Snapshot)
    ensures var reply := Settle(b, order, o).1;
            && (reply == Err(OrderIgnored) <==> !o.completed)
            && (reply == Err(NoFinalPrice) <==> o.completed && o.price.None?)
            && (reply == Err(NoDriver) <==> o.completed && o.price.Some? && o.driver.None?)
            && (reply.Err? && reply.error.BadSplit? <==>
                  o.completed && o.price.Some? && o.driver.Some?
                  && !(o.price.value >= 0 && 1 <= RateOf(o.driverRate) <= 10000 && 1 <= RateOf(Some(o.platformRate)) <= 10000))
  {
    if o.price.Some? {
      SplitSucceedsIff(o.price.value, DriverRate(o), o.platformRate);
    }
  }

  /** Otherwise it is settled unless a balance would leave its column, and a first settlement that would leaves everything
      as it was. */
  lemma SettleSucceedsIff(b: Books, order: Id, o: Snapshot, s: Settlement)
    requires Settleable(o) && order !in b.settlements && SettlementOf(order, o, s)
    ensures Settle(b, order, o).1.Ok? <==>
              && 0 <= BalanceOf(b.balances, s.account) + s.split.net < MONEY_LIMIT
              && (o.park.Some? ==>
                    && 0 <= Latest(b.parkLedger, o.park.value) + s.split.commission < MONEY_LIMIT
                    && 0 <= Latest(b.fees, o.park.value) + s.split.fee < MONEY_LIMIT
                    && 0 <= Latest(b.platform, o.park.value) + s.split.fee < MONEY_LIMIT)
    ensures !Settle(b, order, o).1.Ok? ==> Settle(b, order, o).0 == b
  {
    SettleableRecords(b, order, o);
    FareSplitsRight(o);
    SplitIsUnique(o, SplitFare(o.price.value, DriverRate(o), o.platformRate).value, s.split);
  }

  /** An order has one split. */
  lemma SplitIsUnique(o: Snapshot, s: Split, t: Split)
    requires SplitOf(o, s) && SplitOf(o, t)
    ensures s == t
  {
  }

  // ----- over runs -----

  /** Some settlement of the run was made of this order as it then was. */
  predicate SettledAs(entries: seq<Entry>, order: Id, s: Settlement) {
    exists i :: 0 <= i < |entries| && entries[i].SettleOrder? && entries[i].order == order && SettlementOf(order, entries[i].snapshot, s)
  }

  lemma EntrySettles(b: Books, e: Entry, order: Id)
    requires order !in b.settlements && order in Book(b, e).settlements
    ensures e.SettleOrder? && e.order == order && SettlementOf(order, e.snapshot, Book(b, e).settlements[order])
  {
    if e.SettleOrder? {
      SettlingTouchesOne(b, e.order, e.snapshot, order);
      SettlementSplitsTheFare(b, order, e.snapshot);
    }
  }

  lemma SettlingTouchesOne(b: Books, order: Id, o: Snapshot, other: Id)
    requires other !in b.settlements && other in Settle(b, order, o).0.settlements
    ensures other == order && Settle(b, order, o).1.Ok?
  {
    SettleableRecords(b, order, o);
  }

  lemma {:induction false} EveryNewSettlementIsItsOrders(b: Books, entries: seq<Entry>, order: Id)
    requires order !in b.settlements && order in BookAll(b, entries).settlements
    ensures SettledAs(entries, order, BookAll(b, entries).settlements[order])
    decreases |entries|
  {
    var next := Book(b, entries[0]);
    if order in next.settlements {
      EntrySettles(b, entries[0], order);
      SettledForever(next, entries[1..], order);
    } else {
      EveryNewSettlementIsItsOrders(next, entries[1..], order);
      var s := BookAll(b, entries).settlements[order];
      var i :| 0 <= i < |entries[1..]| && entries[1..][i].SettleOrder? && entries[1..][i].order == order
               && SettlementOf(order, entries[1..][i].snapshot, s);
      assert entries[i + 1] == entries[1..][i];
    }
  }

  /** Every settlement in the books is the split of its order's own price at its own rates, as the order was when it was
      settled. */
  lemma EverySettlementIsItsOrders(entries: seq<Entry>, order: Id)
    requires order in BookAll(OPENING, entries).settlements
    ensures SettledAs(entries, order, BookAll(OPENING, entries).settlements[order])
  {
    EveryNewSettlementIsItsOrders(OPENING, entries, order);
  }
}
