/** The finance transactions as they run, statement by statement: internal/repository/finance_repository.go and
    finance_repository_extended.go. Every check of a transaction comes before its writes here, so that a refused one
    leaves the books as the rollback does. */
module FinanceRepository {
  import opened Prelude
  import opened Ledger
  import opened Commission
  import opened Numeric
  import opened Finance
  import opened Settlements

  /** Renders an amount for its column; the column takes it, or the statement fails. */
  method WriteMoney(amount: int) returns (held: Option<int>)
    requires MIN_INT64 <= amount <= MAX_INT64
    ensures held == Money(amount)
  {
    MoneyColumn(amount);
    held := Stored(MoneyText(amount), MONEY_LIMIT);
    if held.Some? && held.value < 0 {
      held := None;
    }
  }

  method WritePercent(rate: nat) returns (held: Option<int>)
    ensures held == Percent(rate)
  {
    PercentColumn(rate);
    held := Stored(BasisPointsText(rate), RATE_LIMIT);
    if held.Some? && held.value > FULL {
      held := None;
    }
  }

  /** Amounts are 64-bit and rates lie between nothing and everything, as the service computes them. */
  predicate Computed(s: Split) {
    && 0 <= s.rate <= FULL && 0 <= s.feeRate <= FULL
    && 0 <= s.gross <= MAX_INT64 && 0 <= s.commission <= MAX_INT64 && 0 <= s.net <= MAX_INT64 && 0 <= s.fee <= MAX_INT64
  }

  lemma SplitIsComputed(gross: int64, driverRate: int, platformRate: int)
    ensures SplitFare(gross, driverRate, platformRate).Ok? ==> Computed(SplitFare(gross, driverRate, platformRate).value)
  {
    if SplitFare(gross, driverRate, platformRate).Ok? {
      SplitConserves(gross, driverRate, platformRate);
    }
  }

  /** Writes the columns of a settlement. */
  method WriteSplit(s: Split) returns (held: Option<Split>)
    requires Computed(s)
    ensures held == StoredSplit(s)
  {
    var gross := WriteMoney(s.gross);
    var rate := WritePercent(s.rate);
    var commission := WriteMoney(s.commission);
    var net := WriteMoney(s.net);
    var feeRate := WritePercent(s.feeRate);
    var fee := WriteMoney(s.fee);
    if gross.None? || rate.None? || commission.None? || net.None? || feeRate.None? || fee.None? {
      return None;
    }
    return Some(Split(gross.value, rate.value, commission.value, net.value, feeRate.value, fee.value));
  }

  class FinanceRepository {
    var now: Instant
    var settlements: map<Id, Settlement>
    var balances: map<Account, int>
    var ledger: seq<Line<Account, DriverNote>>
    var payouts: seq<Payout>
    var parkBalances: map<Id, int>
    var parkLedger: seq<Line<Id, Id>>
    var fees: seq<Line<Id, FeeNote>>
    var platform: seq<Line<Id, Option<Id>>>
    var invoices: seq<Invoice>

    constructor ()
      ensures State() == OPENING
    {
      now, settlements, balances, ledger, payouts := 0, map[], map[], [], [];
      parkBalances, parkLedger, fees, platform, invoices := map[], [], [], [], [];
    }

    ghost function State(): Books
      reads this
    {
      Books(now, settlements, balances, ledger, payouts, parkBalances, parkLedger, fees, platform, invoices)
    }

    // ----- settlement -----

    method SettleCompletedOrder(order: Id, o: Snapshot) returns (reply: Result<Settlement, FinanceError>)
      modifies this
      ensures (State(), reply) == Settle(old(State()), order, o)
      ensures reply.Ok? && order !in old(settlements) ==> SettlementOf(order, o, reply.value)
    {
      if !o.completed {
        return Err(OrderIgnored);
      }
      if o.price.None? {
        return Err(NoFinalPrice);
      }
      if o.driver.None? {
        return Err(NoDriver);
      }
      var rate := 0;
      if o.driverRate.Some? {
        rate := o.driverRate.value;
      }
      var split := SplitFare(o.price.value, rate, o.platformRate);
      if split.Err? {
        return Err(BadSplit(split.error));
      }
      SplitIsComputed(o.price.value, rate, o.platformRate);
      reply := CreateOrderSettlement(Settlement(order, Account(o.driver.value, o.park), split.value));
      if reply.Ok? && order !in old(settlements) {
        SettlementSplitsTheFare(old(State()), order, o);
      }
    }

    method CreateOrderSettlement(s: Settlement) returns (reply: Result<Settlement, FinanceError>)
      requires Computed(s.split)
      modifies this
      ensures (State(), reply) == Record(old(State()), s)
    {
      if s.order in settlements {
        return Ok(settlements[s.order]);
      }
      var stored := WriteSplit(s.split);
      if stored.None? || Money(BalanceOf(balances, s.account) + s.split.net).None? {
        return Err(DoesNotFit);
      }
      if s.account.park.Some? {
        var fits := ParkAmountsFit(s, s.account.park.value);
        if !fits {
          return Err(DoesNotFit);
        }
        InsertParkLedgers(s, s.account.park.value);
      }
      InsertDriverIncome(s);
      settlements := settlements[s.order := s.(split := stored.value)];
      return Ok(s);
    }

    method InsertDriverIncome(s: Settlement)
      modifies this`balances, this`ledger
      ensures State() == PostDriver(old(State()), s)
    {
      UpsertDriverBalance(s.account, s.split.net);
      InsertDriverLedger(s.account, s.split.net, Income(s.order));
    }

    method ParkAmountsFit(s: Settlement, park: Id) returns (fits: bool)
      requires s.account.park == Some(park)
      ensures fits == ParkFits(State(), s)
    {
      var income := LatestBalance(parkLedger, park);
      var debt := LatestBalance(fees, park);
      var receivable := LatestBalance(platform, park);
      fits := Money(income + s.split.commission).Some? && Money(debt + s.split.fee).Some? && Money(receivable + s.split.fee).Some?;
    }

    /** The park's balance and the three ledgers of a park-owned order. */
    method InsertParkLedgers(s: Settlement, park: Id)
      requires s.account.park == Some(park)
      modifies this`parkBalances, this`parkLedger, this`fees, this`platform
      ensures State() == PostPark(old(State()), s)
    {
      parkBalances := parkBalances[park := BalanceOf(parkBalances, park) + s.split.commission];
      var income := LatestBalance(parkLedger, park);
      parkLedger := parkLedger + [Line(park, s.split.commission, income + s.split.commission, s.order)];
      InsertFeeLines(park, s.split.fee, s.order);
    }

    method InsertFeeLines(park: Id, fee: int, order: Id)
      modifies this`fees, this`platform
      ensures fees == Posted(old(fees), park, fee, Accrual(order, None, now))
      ensures platform == Posted(old(platform), park, fee, Some(order))
    {
      var debt := LatestBalance(fees, park);
      fees := fees + [Line(park, fee, debt + fee, Accrual(order, None, now))];
      var receivable := LatestBalance(platform, park);
      platform := platform + [Line(park, fee, receivable + fee, Some(order))];
    }

    method UpsertDriverBalance(account: Account, net: int)
      modifies this`balances
      ensures balances == old(balances)[account := BalanceOf(old(balances), account) + net]
    {
      if account in balances {
        balances := balances[account := balances[account] + net];
      } else {
        balances := balances[account := net];
      }
    }

    /** The line repeats the balance as the account holds it by now. */
    method InsertDriverLedger(account: Account, delta: int, note: DriverNote)
      requires account in balances
      modifies this`ledger
      ensures ledger == old(ledger) + [Line(account, delta, balances[account], note)]
    {
      var balanceAfter := balances[account];
      ledger := ledger + [Line(account, delta, balanceAfter, note)];
    }

    // ----- payouts -----

    method CreateDriverPayout(driver: Id, park: Id, amount: int) returns (reply: Result<nat, FinanceError>)
      modifies this`payouts
      ensures (State(), reply) == CreatePayout(old(State()), driver, park, amount)
    {
      if amount <= 0 {
        return Err(InvalidAmount);
      }
      var account := Account(driver, Some(park));
      if account !in balances {
        return Err(NotFound);
      }
      if balances[account] < amount {
        return Err(InsufficientBalance);
      }
      if Money(amount).None? {
        return Err(DoesNotFit);
      }
      payouts := payouts + [Payout(account, amount, Created)];
      return Ok(|payouts| - 1);
    }

    method UpdateDriverPayoutStatus(park: Id, n: nat, status: PayoutStatus) returns (found: bool)
      modifies this`payouts
      ensures found == Open(old(State()), park, n)
      ensures State() == if found then WithStatus(old(State()), n, status) else old(State())
    {
      if n >= |payouts| || payouts[n].account.park != Some(park) {
        return false;
      }
      if payouts[n].status != Created && payouts[n].status != Approved {
        return false;
      }
      payouts := payouts[n := payouts[n].(status := status)];
      return true;
    }

    method ApproveDriverPayout(park: Id, n: nat) returns (reply: Result<Payout, FinanceError>)
      modifies this`payouts
      ensures (State(), reply) == Approve(old(State()), park, n)
    {
      var found := UpdateDriverPayoutStatus(park, n, Approved);
      if !found {
        return Err(NotFound);
      }
      return Ok(payouts[n]);
    }

    method MarkDriverPayoutPaid(park: Id, n: nat) returns (reply: Result<Payout, FinanceError>)
      modifies this`payouts, this`balances, this`ledger
      ensures (State(), reply) == Pay(old(State()), park, n)
    {
      var before := payouts;
      var found := UpdateDriverPayoutStatus(park, n, Paid);
      if !found {
        return Err(NotFound);
      }
      var payout := payouts[n];
      var refused := DebitDriverBalance(payout, n);
      if refused.Some? {
        payouts := before;
        return Err(refused.value);
      }
      return Ok(payout);
    }

    method DebitDriverBalance(payout: Payout, n: nat) returns (refused: Option<FinanceError>)
      modifies this`balances, this`ledger
      ensures refused == Refusal(old(balances), payout.account, payout.amount)
      ensures refused.Some? ==> balances == old(balances) && ledger == old(ledger)
      ensures refused.None? ==>
                var balance := BalanceOf(old(balances), payout.account) - payout.amount;
                && balances == old(balances)[payout.account := balance]
                && ledger == old(ledger) + [Line(payout.account, 0 - payout.amount, balance, PayoutMade(n))]
    {
      if payout.account !in balances || balances[payout.account] < payout.amount {
        return Some(InsufficientBalance);
      }
      if Money(balances[payout.account] - payout.amount).None? {
        return Some(DoesNotFit);
      }
      InsertPayoutDebit(payout, n);
      return None;
    }

    method InsertPayoutDebit(payout: Payout, n: nat)
      requires payout.account in balances
      modifies this`balances, this`ledger
      ensures var balance := old(balances)[payout.account] - payout.amount;
              && balances == old(balances)[payout.account := balance]
              && ledger == old(ledger) + [Line(payout.account, 0 - payout.amount, balance, PayoutMade(n))]
    {
      balances := balances[payout.account := balances[payout.account] - payout.amount];
      InsertDriverLedger(payout.account, 0 - payout.amount, PayoutMade(n));
    }

    // ----- invoices -----

    method CreateTaxiParkPlatformInvoice(park: Id, since: Instant, till: Instant) returns (reply: Result<nat, FinanceError>)
      modifies this`invoices, this`fees
      ensures (State(), reply) == CreateInvoice(old(State()), park, since, till)
    {
      var amount := SumAccruals(park, since, till);
      if Money(amount).None? {
        return Err(DoesNotFit);
      }
      if exists i :: 0 <= i < |invoices| && invoices[i].park == park && invoices[i].since == since && invoices[i].till == till {
        return Err(DuplicatePeriod);
      }
      fees := Attach(fees, park, since, till, |invoices|);
      invoices := invoices + [Invoice(park, amount, since, till, false)];
      return Ok(|invoices| - 1);
    }

    method SumAccruals(park: Id, since: Instant, till: Instant) returns (amount: int)
      ensures amount == Bill(fees, park, since, till)
    {
      amount := 0;
      for n := 0 to |fees|
        invariant amount == Bill(fees[..n], park, since, till)
      {
        assert fees[..n + 1][..n] == fees[..n];
        if Billable(fees[n], park, since, till) {
          amount := amount + fees[n].delta;
        }
      }
      assert fees[..|fees|] == fees;
    }

    method MarkAdminPlatformInvoicePaid(i: nat) returns (reply: Result<Invoice, FinanceError>)
      modifies this`invoices, this`fees, this`platform
      ensures (State(), reply) == PayInvoice(old(State()), i)
    {
      if i >= |invoices| {
        return Err(NotFound);
      }
      var invoice := invoices[i];
      var fits := PaymentAmountsFit(invoice);
      if !fits {
        return Err(DoesNotFit);
      }
      InsertPaymentLines(i);
      return Ok(invoices[i]);
    }

    method PaymentAmountsFit(invoice: Invoice) returns (fits: bool)
      ensures fits == PaymentFits(State(), invoice)
    {
      var debt := LatestBalance(fees, invoice.park);
      var received := LatestBalance(platform, invoice.park);
      fits := Money(debt - invoice.amount).Some? && Money(received + invoice.amount).Some?;
    }

    method InsertPaymentLines(i: nat)
      requires i < |invoices|
      modifies this`invoices, this`fees, this`platform
      ensures State() == PostPayment(old(State()), i)
    {
      var invoice := invoices[i];
      invoices := invoices[i := invoice.(paid := true)];
      var debt := LatestBalance(fees, invoice.park);
      fees := fees + [Line(invoice.park, 0 - invoice.amount, debt - invoice.amount, Payment(i))];
      var received := LatestBalance(platform, invoice.park);
      platform := platform + [Line(invoice.park, invoice.amount, received + invoice.amount, None)];
    }

    method GetTaxiParkPlatformFeeDebt(park: Id) returns (debt: int)
      ensures debt == Debt(State(), park)
    {
      debt := LatestBalance(fees, park);
    }
  }
}
