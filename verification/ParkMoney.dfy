/** What the books hold about parks and the platform, over every run: a park has the commissions of its settlements, the
    platform their fees, line by line and in sum; and what each call on payouts and invoices does, in its columns:
    internal/repository/finance_repository.go, finance_repository_extended.go. */
module ParkMoney {
  import opened Prelude
  import opened Ledger
  import opened Numeric
  import opened Finance
  import opened DriverMoney
  import opened ParkFees
  import Commission

  // ----- what parks and the platform earn -----

  function CommissionFor(s: Settlement, park: Id): nat {
    if s.account.park == Some(park) && s.split.commission >= 0 then s.split.commission else 0
  }

  function FeeFor(s: Settlement, park: Id): nat {
    if s.account.park == Some(park) && s.split.fee >= 0 then s.split.fee else 0
  }

  /** The commissions of all settlements of a park. */
  ghost function Commissions(settlements: map<Id, Settlement>, park: Id): nat {
    Total(map o | o in settlements :: CommissionFor(settlements[o], park))
  }

  /** The fees of all settlements of a park. */
  ghost function Fees(settlements: map<Id, Settlement>, park: Id): nat {
    Total(map o | o in settlements :: FeeFor(settlements[o], park))
  }

  lemma NewSettlementPaysCommission(settlements: map<Id, Settlement>, after: map<Id, Settlement>, s: Settlement, park: Id)
    requires s.order !in settlements && after == settlements[s.order := s]
    ensures Commissions(after, park) == Commissions(settlements, park) + CommissionFor(s, park)
  {
    var commissions := map o | o in settlements :: CommissionFor(settlements[o], park);
    TotalPut(commissions, s.order, CommissionFor(s, park));
    assert commissions[s.order := CommissionFor(s, park)] == map o | o in after :: CommissionFor(after[o], park);
  }

  lemma NewSettlementPaysFee(settlements: map<Id, Settlement>, after: map<Id, Settlement>, s: Settlement, park: Id)
    requires s.order !in settlements && after == settlements[s.order := s]
    ensures Fees(after, park) == Fees(settlements, park) + FeeFor(s, park)
  {
    var fees := map o | o in settlements :: FeeFor(settlements[o], park);
    TotalPut(fees, s.order, FeeFor(s, park));
    assert fees[s.order := FeeFor(s, park)] == map o | o in after :: FeeFor(after[o], park);
  }

  /** A line that was posted for an order repeats its settlement with the park. */
  predicate Repeats(settlements: map<Id, Settlement>, order: Id, park: Id) {
    order in settlements && settlements[order].account.park == Some(park)
  }

  predicate LinesRepeat(b: Books) {
    && (forall j :: 0 <= j < |b.parkLedger| ==> var line := b.parkLedger[j];
          Repeats(b.settlements, line.note, line.owner) && line.delta == b.settlements[line.note].split.commission)
    && (forall j :: 0 <= j < |b.fees| && b.fees[j].note.Accrual? ==> var line := b.fees[j];
          Repeats(b.settlements, line.note.order, line.owner) && line.delta == b.settlements[line.note.order].split.fee)
    && (forall j :: 0 <= j < |b.platform| && b.platform[j].note.Some? ==> var line := b.platform[j];
          Repeats(b.settlements, line.note.value, line.owner) && line.delta == b.settlements[line.note.value].split.fee)
  }

  /** The park's balance is its ledger and its commissions, its accruals are its fees, and the platform has the same fees and
      what the park paid. */
  ghost predicate Tallies(b: Books, park: Id) {
    && BalanceOf(b.parkBalances, park) == Balance(b.parkLedger, park) == Commissions(b.settlements, park)
    && Uninvoiced(b.fees, park) + Invoiced(b.fees, park) == Fees(b.settlements, park)
    && Balance(b.platform, park) == Fees(b.settlements, park) + PaidIn(b.fees, park)
  }

  ghost predicate ParkBooks(b: Books) {
    FeeBooks(b) && Running(b.parkLedger) && LinesRepeat(b) && forall park :: Tallies(b, park)
  }

  // ----- every entry keeps them -----

  lemma CommissionIsPosted(b: Books, after: Books, s: Settlement, park: Id)
    requires BalanceOf(b.parkBalances, park) == Balance(b.parkLedger, park) && after == PostPark(b, s) && s.split.commission >= 0
    ensures BalanceOf(after.parkBalances, park) == Balance(after.parkLedger, park) == Balance(b.parkLedger, park) + CommissionFor(s, park)
  {
    if s.account.park.Some? {
      BalanceAppend(b.parkLedger, after.parkLedger[|b.parkLedger|], park);
    }
  }

  lemma FeeIsPosted(b: Books, after: Books, s: Settlement, park: Id)
    requires after == PostPark(b, s) && s.split.fee >= 0
    ensures Uninvoiced(after.fees, park) + Invoiced(after.fees, park) == Uninvoiced(b.fees, park) + Invoiced(b.fees, park) + FeeFor(s, park)
    ensures PaidIn(after.fees, park) == PaidIn(b.fees, park) && Balance(after.platform, park) == Balance(b.platform, park) + FeeFor(s, park)
  {
    if s.account.park.Some? {
      SumsAppend(b.fees, after.fees[|b.fees|], park, 0);
      BalanceAppend(b.platform, after.platform[|b.platform|], park);
    }
  }

  lemma SettlementTallies(b: Books, after: Books, s: Settlement, park: Id)
    requires Tallies(b, park) && s.order !in b.settlements && s.split.commission >= 0 && s.split.fee >= 0
    requires after == PostPark(b, s).(settlements := b.settlements[s.order := s])
    ensures Tallies(after, park)
  {
    NewSettlementPaysCommission(b.settlements, after.settlements, s, park);
    NewSettlementPaysFee(b.settlements, after.settlements, s, park);
    CommissionIsPosted(b, PostPark(b, s), s, park);
    FeeIsPosted(b, PostPark(b, s), s, park);
  }

  lemma SettlementRepeats(b: Books, after: Books, s: Settlement)
    requires LinesRepeat(b) && s.order !in b.settlements
    requires after == PostPark(b, s).(settlements := b.settlements[s.order := s])
    ensures LinesRepeat(after)
  {
  }

  lemma SameParksKeep(b: Books, after: Books)
    requires ParkBooks(b) && FeeBooks(after) && SameFees(b, after) && after.settlements == b.settlements
    ensures ParkBooks(after)
  {
    forall park
      ensures Tallies(after, park)
    {
      assert Tallies(b, park);
    }
  }

  lemma RecordKeepsParks(b: Books, s: Settlement)
    requires ParkBooks(b)
    ensures ParkBooks(Record(b, s).0)
  {
    var after := Record(b, s).0;
    ParkFees.RecordKeeps(b, s);
    if s.order !in b.settlements && Record(b, s).1.Ok? {
      StoredExactly(s.split);
      var posted := PostPark(b, s).(settlements := b.settlements[s.order := s]);
      SettlementRepeats(b, posted, s);
      forall park
        ensures Tallies(after, park)
      {
        assert Tallies(b, park);
        SettlementTallies(b, posted, s, park);
      }
    }
  }

  lemma SettleKeepsParks(b: Books, order: Id, o: Snapshot)
    requires ParkBooks(b)
    ensures ParkBooks(Settle(b, order, o).0)
  {
    SettleableRecords(b, order, o);
    if Settleable(o) {
      var split := Commission.SplitFare(o.price.value, DriverRate(o), o.platformRate).value;
      RecordKeepsParks(b, Settlement(order, Account(o.driver.value, o.park), split));
    }
  }

  lemma AttachingRepeats(b: Books, after: Books, park: Id, since: Instant, till: Instant, i: nat)
    requires LinesRepeat(b) && after.fees == Attach(b.fees, park, since, till, i) && after.settlements == b.settlements
    requires after.parkLedger == b.parkLedger && after.platform == b.platform
    ensures LinesRepeat(after)
  {
    AttachedLines(b.fees, park, since, till, i);
    forall j | 0 <= j < |after.fees| && after.fees[j].note.Accrual?
      ensures var line := after.fees[j];
              Repeats(after.settlements, line.note.order, line.owner) && line.delta == after.settlements[line.note.order].split.fee
    {
      assert b.fees[j].note.Accrual?;
    }
  }

  lemma AttachingTallies(b: Books, after: Books, park: Id, since: Instant, till: Instant, p: Id)
    requires Tallies(b, p) && LinesOk(b) && after.fees == Attach(b.fees, park, since, till, |b.invoices|)
    requires after.settlements == b.settlements && after.parkBalances == b.parkBalances
    requires after.parkLedger == b.parkLedger && after.platform == b.platform
    ensures Tallies(after, p)
  {
    NoLineNames(b, |b.invoices|);
    AttachMoves(b.fees, park, since, till, |b.invoices|, p, 0);
  }

  lemma InvoiceKeepsParks(b: Books, park: Id, since: Instant, till: Instant)
    requires ParkBooks(b)
    ensures ParkBooks(CreateInvoice(b, park, since, till).0)
  {
    var (after, reply) := CreateInvoice(b, park, since, till);
    CreateInvoiceKeeps(b, park, since, till);
    if reply.Ok? {
      AttachingRepeats(b, after, park, since, till, |b.invoices|);
      forall p
        ensures Tallies(after, p)
      {
        assert Tallies(b, p);
        AttachingTallies(b, after, park, since, till, p);
      }
    }
  }

  lemma PaymentKeepsParks(b: Books, i: nat)
    requires ParkBooks(b)
    ensures ParkBooks(PayInvoice(b, i).0)
  {
    var (after, reply) := PayInvoice(b, i);
    PayInvoiceKeeps(b, i);
    if reply.Ok? {
      forall p
        ensures Tallies(after, p)
      {
        assert Tallies(b, p);
        SumsAppend(b.fees, after.fees[|b.fees|], p, 0);
        BalanceAppend(b.platform, after.platform[|b.platform|], p);
      }
    }
  }

  lemma OtherEntriesKeepParks(b: Books, e: Entry)
    requires ParkBooks(b) && !e.SettleOrder? && !e.NewInvoice? && !e.InvoicePaid?
    ensures ParkBooks(Book(b, e))
  {
    OtherEntriesLeaveFees(b, e);
    OtherEntriesKeepFees(b, e);
    OtherEntriesLeaveSettlements(b, e);
    SameParksKeep(b, Book(b, e));
  }

  lemma OtherEntriesLeaveSettlements(b: Books, e: Entry)
    requires !e.SettleOrder?
    ensures Book(b, e).settlements == b.settlements
  {
  }

  lemma EntryKeepsParkBooks(b: Books, e: Entry)
    requires ParkBooks(b)
    ensures ParkBooks(Book(b, e))
  {
    match e {
      case SettleOrder(order, snapshot) => SettleKeepsParks(b, order, snapshot);
      case NewInvoice(park, since, till) => InvoiceKeepsParks(b, park, since, till);
      case InvoicePaid(i) => PaymentKeepsParks(b, i);
      case _ => OtherEntriesKeepParks(b, e);
    }
  }

  lemma {:induction false} RunKeepsParkBooks(b: Books, entries: seq<Entry>)
    requires ParkBooks(b)
    ensures ParkBooks(BookAll(b, entries))
    decreases |entries|
  {
    if entries != [] {
      EntryKeepsParkBooks(b, entries[0]);
      RunKeepsParkBooks(Book(b, entries[0]), entries[1..]);
    }
  }

  lemma NothingEarnedYet(settlements: map<Id, Settlement>, park: Id)
    ensures settlements == map[] ==> Commissions(settlements, park) == 0 && Fees(settlements, park) == 0
  {
    var commissions := map o | o in settlements :: CommissionFor(settlements[o], park);
    var fees := map o | o in settlements :: FeeFor(settlements[o], park);
    assert commissions.Keys == settlements.Keys && fees.Keys == settlements.Keys;
  }

  /** After any run a park has earned the commissions of its settlements, no more and no less, and has been charged their
      fees, which the platform has with what was paid; and each line repeats the settlement it was posted for. */
  lemma ParkMoneyIsConserved(entries: seq<Entry>, park: Id)
    ensures var b := BookAll(OPENING, entries);
            && LinesRepeat(b)
            && BalanceOf(b.parkBalances, park) == Latest(b.parkLedger, park) == Commissions(b.settlements, park)
            && Uninvoiced(b.fees, park) + Invoiced(b.fees, park) == Fees(b.settlements, park)
            && Latest(b.platform, park) == Fees(b.settlements, park) + PaidIn(b.fees, park)
  {
    forall p
      ensures Tallies(OPENING, p)
    {
      NothingEarnedYet(OPENING.settlements, p);
    }
    RunKeepsParkBooks(OPENING, entries);
    var b := BookAll(OPENING, entries);
    assert Tallies(b, park);
    LatestIsBalance(b.parkLedger, park);
    LatestIsBalance(b.platform, park);
  }

  // ----- payouts -----

  /** A payout is created exactly for a positive amount that the driver's account with the park covers. */
  lemma PayoutCreatedIff(b: Books, driver: Id, park: Id, amount: int)
    ensures var (after, reply) := CreatePayout(b, driver, park, amount);
            var account := Account(driver, Some(park));
            && (reply.Ok? <==> 0 < amount < MONEY_LIMIT && account in b.balances && amount <= b.balances[account])
            && (reply == Err(InvalidAmount) <==> amount <= 0)
            && (reply == Err(InsufficientBalance) <==> amount > 0 && account in b.balances && b.balances[account] < amount)
            && (if reply.Ok? then reply.value == |b.payouts| && after == b.(payouts := b.payouts + [Payout(account, amount, Created)])
                else after == b)
  {
  }

  /** Approval takes an unpaid payout of the park, and changes only its status. */
  lemma PayoutApprovedIff(b: Books, park: Id, n: nat)
    ensures var (after, reply) := Approve(b, park, n);
            && (reply.Ok? <==> n < |b.payouts| && b.payouts[n].account.park == Some(park) && b.payouts[n].status in {Created, Approved})
            && after == (if reply.Ok? then b.(payouts := b.payouts[n := b.payouts[n].(status := Approved)]) else b)
            && (reply.Ok? ==> reply.value == after.payouts[n])
  {
  }

  /** An unpaid payout of the park is paid exactly if the account covers it still; then its amount leaves the account, once,
      with a line that says so. */
  lemma PayoutPaidIff(b: Books, park: Id, n: nat)
    ensures var (after, reply) := Pay(b, park, n);
            && (reply.Ok? <==>
                  && n < |b.payouts| && b.payouts[n].account.park == Some(park) && b.payouts[n].status in {Created, Approved}
                  && b.payouts[n].account in b.balances
                  && b.payouts[n].amount <= b.balances[b.payouts[n].account] < b.payouts[n].amount + MONEY_LIMIT)
            && (if reply.Ok? then
                  var p := b.payouts[n];
                  var rest := b.balances[p.account] - p.amount;
                  && reply.value == p.(status := Paid)
                  && after == b.(payouts := b.payouts[n := p.(status := Paid)], balances := b.balances[p.account := rest],
                                 ledger := b.ledger + [Line(p.account, 0 - p.amount, rest, PayoutMade(n))])
                else after == b)
  {
  }

  // ----- invoices -----

  /** An open accrual of the park in the period, in its own columns. */
  predicate Due(line: FeeLine, park: Id, since: Instant, till: Instant) {
    line.owner == park && line.note.Accrual? && line.note.invoice == None && since <= line.note.at && line.note.at < till
  }

  /** What they add up to, from the first line on. */
  function DueSum(fees: seq<FeeLine>, park: Id, since: Instant, till: Instant): int {
    if fees == [] then 0 else (if Due(fees[0], park, since, till) then fees[0].delta else 0) + DueSum(fees[1..], park, since, till)
  }

  lemma {:induction false} DueSumAppend(fees: seq<FeeLine>, line: FeeLine, park: Id, since: Instant, till: Instant)
    ensures DueSum(fees + [line], park, since, till) == DueSum(fees, park, since, till) + if Due(line, park, since, till) then line.delta else 0
  {
    if fees == [] {
      assert [line][1..] == [];
    } else {
      assert (fees + [line])[1..] == fees[1..] + [line];
      DueSumAppend(fees[1..], line, park, since, till);
    }
  }

  lemma {:induction false} BillIsDueSum(fees: seq<FeeLine>, park: Id, since: Instant, till: Instant)
    ensures Bill(fees, park, since, till) == DueSum(fees, park, since, till)
  {
    if fees != [] {
      var front, last := fees[..|fees| - 1], fees[|fees| - 1];
      BillIsDueSum(front, park, since, till);
      assert fees == front + [last];
      DueSumAppend(front, last, park, since, till);
    }
  }

  /** A period is invoiced exactly once, for what is open in it; those accruals, and no other line, join the invoice, so that
      nothing of the period stays open. */
  lemma InvoiceCreatedIff(b: Books, park: Id, since: Instant, till: Instant)
    ensures var (after, reply) := CreateInvoice(b, park, since, till);
            var amount, i := DueSum(b.fees, park, since, till), |b.invoices|;
            && (reply.Ok? <==> 0 <= amount < MONEY_LIMIT && forall j :: 0 <= j < i ==>
                  !(b.invoices[j].park == park && b.invoices[j].since == since && b.invoices[j].till == till))
            && (if reply.Ok? then
                  && reply.value == i && after == b.(invoices := b.invoices + [Invoice(park, amount, since, till, false)], fees := after.fees)
                  && |after.fees| == |b.fees|
                  && (forall n :: 0 <= n < |b.fees| ==>
                        && after.fees[n] == (if Due(b.fees[n], park, since, till) then b.fees[n].(note := b.fees[n].note.(invoice := Some(i)))
                                             else b.fees[n])
                        && !Due(after.fees[n], park, since, till))
                else after == b)
  {
    BillIsDueSum(b.fees, park, since, till);
    AttachedLines(b.fees, park, since, till, |b.invoices|);
  }

  /** An invoice that exists is marked paid, whatever it was, if both ledgers can take the payment; each gets one line. */
  lemma InvoicePaidIff(b: Books, i: nat)
    ensures var (after, reply) := PayInvoice(b, i);
            && (reply.Ok? <==>
                  && i < |b.invoices|
                  && 0 <= Latest(b.fees, b.invoices[i].park) - b.invoices[i].amount < MONEY_LIMIT
                  && 0 <= Latest(b.platform, b.invoices[i].park) + b.invoices[i].amount < MONEY_LIMIT)
            && (if reply.Ok? then
                  var invoice := b.invoices[i];
                  && reply.value == invoice.(paid := true)
                  && after == b.(
                       invoices := b.invoices[i := invoice.(paid := true)],
                       fees := b.fees + [Line(invoice.park, 0 - invoice.amount, Latest(b.fees, invoice.park) - invoice.amount, Payment(i))],
                       platform := b.platform + [Line(invoice.park, invoice.amount, Latest(b.platform, invoice.park) + invoice.amount, None)])
                else after == b)
  {
  }
}
