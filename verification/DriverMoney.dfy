/** What every run of the books keeps about drivers: settlements happen once, balances are the sums of their ledgers,
    and every payout debits exactly once if it is paid and never otherwise. */
module DriverMoney {
  import opened Prelude
  import opened Ledger
  import opened Commission
  import opened Finance

  // ----- settling again -----

  lemma StoredExactly(s: Split)
    ensures StoredSplit(s).Some? ==> StoredSplit(s).value == s
  {
  }

  /** What a settlement needs of an order: it is completed, priced and driven, its price is not negative, and both rates
      lie between nothing and everything. */
  predicate Settleable(o: Snapshot) {
    && o.completed && o.price.Some? && o.driver.Some? && o.price.value >= 0
    && 0 <= DriverRate(o) <= FULL && 0 <= o.platformRate <= FULL
  }

  lemma SplitSucceedsIff(price: Price, driverRate: int, platformRate: int)
    ensures SplitFare(price, driverRate, platformRate).Ok?
       <==> price >= 0 && 0 <= driverRate <= FULL && 0 <= platformRate <= FULL
  {
    if price >= 0 && 0 <= driverRate <= FULL && 0 <= platformRate <= FULL {
      SplitSucceedsBelowBound(price, driverRate, platformRate);
    }
  }

  lemma RecordingTwiceIsOnce(b: Books, s: Settlement, later: Settlement)
    requires later.order == s.order && Record(b, s).1.Ok?
    ensures Record(Record(b, s).0, later) == Record(b, s)
  {
    StoredExactly(s.split);
  }

  lemma SettleableRecords(b: Books, order: Id, o: Snapshot)
    ensures if Settleable(o) then
              var split := SplitFare(o.price.value, DriverRate(o), o.platformRate);
              split.Ok? && Settle(b, order, o) == Record(b, Settlement(order, Account(o.driver.value, o.park), split.value))
            else Settle(b, order, o).0 == b && Settle(b, order, o).1.Err?
  {
    if o.price.Some? {
      SplitSucceedsIff(o.price.value, DriverRate(o), o.platformRate);
    }
  }

  /** Settling an order again, whatever its price and rates have become, never changes the books; and it returns the same
      amounts and rates exactly when the order, as it is then, could be settled at all. */
  lemma SettlingTwiceIsOnce(b: Books, order: Id, o: Snapshot, later: Snapshot)
    requires Settle(b, order, o).1.Ok?
    ensures var (after, reply) := Settle(b, order, o);
            && Settle(after, order, later).0 == after
            && (Settle(after, order, later).1 == reply <==> Settleable(later))
  {
    SettleableRecords(b, order, o);
    SettleableRecords(Settle(b, order, o).0, order, later);
    if Settleable(later) {
      var first := SplitFare(o.price.value, DriverRate(o), o.platformRate).value;
      var second := SplitFare(later.price.value, DriverRate(later), later.platformRate).value;
      RecordingTwiceIsOnce(b, Settlement(order, Account(o.driver.value, o.park), first),
                           Settlement(order, Account(later.driver.value, later.park), second));
    }
  }

  lemma EntryKeepsSettlements(b: Books, e: Entry, order: Id)
    requires order in b.settlements
    ensures order in Book(b, e).settlements && Book(b, e).settlements[order] == b.settlements[order]
  {
  }

  lemma {:induction false} SettledForever(b: Books, entries: seq<Entry>, order: Id)
    requires order in b.settlements
    ensures var after := BookAll(b, entries);
            order in after.settlements && after.settlements[order] == b.settlements[order]
    decreases |entries|
  {
    if entries != [] {
      EntryKeepsSettlements(b, entries[0], order);
      SettledForever(Book(b, entries[0]), entries[1..], order);
    }
  }

  // ----- the driver ledger -----

  function NetFor(s: Settlement, k: Account): nat {
    if s.account == k && s.split.net >= 0 then s.split.net else 0
  }

  /** All that the settlements of an account earned. */
  ghost function Earned(settlements: map<Id, Settlement>, k: Account): nat {
    Total(map o | o in settlements :: NetFor(settlements[o], k))
  }

  function PaidFor(p: Payout, k: Account): nat {
    if p.account == k && p.status == Paid then p.amount else 0
  }

  /** All that the paid payouts of an account took. */
  function PaidOut(payouts: seq<Payout>, k: Account): nat {
    if payouts == [] then 0 else PaidOut(payouts[..|payouts| - 1], k) + PaidFor(payouts[|payouts| - 1], k)
  }

  /** A line of the ledger repeats what it was written for. */
  predicate Justified(line: Line<Account, DriverNote>, settlements: map<Id, Settlement>, payouts: seq<Payout>) {
    match line.note
    case Income(o) =>
      o in settlements && settlements[o].account == line.owner && settlements[o].split.net == line.delta && line.delta >= 0
    case PayoutMade(n) =>
      n < |payouts| && payouts[n].status == Paid && payouts[n].account == line.owner && line.delta == 0 - payouts[n].amount
  }

  predicate Occurs(ledger: seq<Line<Account, DriverNote>>, note: DriverNote) {
    exists j :: 0 <= j < |ledger| && ledger[j].note == note
  }

  /** Lines and events correspond one to one: each settlement credits once, each paid payout debits once, no other does. */
  predicate OneToOne(b: Books) {
    && (forall j :: 0 <= j < |b.ledger| ==> Justified(b.ledger[j], b.settlements, b.payouts))
    && (forall i, j :: 0 <= i < j < |b.ledger| ==> b.ledger[i].note != b.ledger[j].note)
    && (forall o :: o in b.settlements ==> Occurs(b.ledger, Income(o)))
    && (forall n :: 0 <= n < |b.payouts| && b.payouts[n].status == Paid ==> Occurs(b.ledger, PayoutMade(n)))
  }

  /** Balances, ledger, settlements and payouts agree, and nobody is in the red. */
  ghost predicate Agrees(b: Books, k: Account) {
    && BalanceOf(b.balances, k) == Balance(b.ledger, k) >= 0
    && Balance(b.ledger, k) == Earned(b.settlements, k) - PaidOut(b.payouts, k)
  }

  ghost predicate DriverBooks(b: Books) {
    Running(b.ledger) && OneToOne(b) && forall k :: Agrees(b, k)
  }

  lemma OccursAppend(ledger: seq<Line<Account, DriverNote>>, line: Line<Account, DriverNote>, note: DriverNote)
    ensures Occurs(ledger + [line], note) <==> Occurs(ledger, note) || line.note == note
  {
    var longer := ledger + [line];
    assert longer[|ledger|] == line;
    if Occurs(ledger, note) {
      var j :| 0 <= j < |ledger| && ledger[j].note == note;
      assert longer[j].note == note;
    }
  }

  lemma NewSettlementEarns(settlements: map<Id, Settlement>, after: map<Id, Settlement>, s: Settlement, k: Account)
    requires s.order !in settlements && after == settlements[s.order := s]
    ensures Earned(after, k) == Earned(settlements, k) + NetFor(s, k)
  {
    var nets := map o | o in settlements :: NetFor(settlements[o], k);
    TotalPut(nets, s.order, NetFor(s, k));
    assert nets[s.order := NetFor(s, k)] == map o | o in after :: NetFor(after[o], k);
  }

  lemma NothingEarned(settlements: map<Id, Settlement>, k: Account)
    ensures settlements == map[] ==> Earned(settlements, k) == 0
  {
    var nets := map o | o in settlements :: NetFor(settlements[o], k);
    assert nets.Keys == settlements.Keys;
  }

  lemma {:induction false} PayoutPaid(payouts: seq<Payout>, n: nat, p: Payout, k: Account)
    requires n < |payouts|
    ensures PaidOut(payouts[n := p], k) == PaidOut(payouts, k) - PaidFor(payouts[n], k) + PaidFor(p, k)
  {
    var front := payouts[..|payouts| - 1];
    if n < |front| {
      PayoutPaid(front, n, p, k);
      assert payouts[n := p][..|front|] == front[n := p];
    } else {
      assert payouts[n := p][..|front|] == front;
    }
  }

  /** A settlement credits its own account and no other. */
  lemma CreditAgrees(b: Books, s: Settlement, settled: map<Id, Settlement>, k: Account)
    requires Agrees(b, k) && s.order !in b.settlements && s.split.net >= 0 && settled == b.settlements[s.order := s]
    ensures Agrees(PostDriver(b, s).(settlements := settled), k)
  {
    BalanceAppend(b.ledger, Line(s.account, s.split.net, BalanceOf(b.balances, s.account) + s.split.net, Income(s.order)), k);
    NewSettlementEarns(b.settlements, settled, s, k);
  }

  lemma CreditKeeps(b: Books, s: Settlement, settled: map<Id, Settlement>)
    requires DriverBooks(b) && s.order !in b.settlements && s.split.net >= 0 && settled == b.settlements[s.order := s]
    ensures DriverBooks(PostDriver(b, s).(settlements := settled))
  {
    var after := PostDriver(b, s).(settlements := settled);
    assert Agrees(b, s.account);
    RunningAppend(b.ledger, after.ledger[|b.ledger|]);
    CreditIsOneToOne(b, s, settled);
    forall k
      ensures Agrees(after, k)
    {
      assert Agrees(b, k);
      CreditAgrees(b, s, settled, k);
    }
  }

  lemma CreditIsJustified(b: Books, s: Settlement, settled: map<Id, Settlement>)
    requires OneToOne(b) && s.order !in b.settlements && s.split.net >= 0 && settled == b.settlements[s.order := s]
    ensures forall j :: 0 <= j < |b.ledger| ==> Justified(b.ledger[j], settled, b.payouts) && b.ledger[j].note != Income(s.order)
  {
  }

  lemma CreditIsOneToOne(b: Books, s: Settlement, settled: map<Id, Settlement>)
    requires OneToOne(b) && s.order !in b.settlements && s.split.net >= 0 && settled == b.settlements[s.order := s]
    ensures OneToOne(PostDriver(b, s).(settlements := settled))
  {
    var line := PostDriver(b, s).ledger[|b.ledger|];
    CreditIsJustified(b, s, settled);
    forall note
      ensures Occurs(b.ledger + [line], note) <==> Occurs(b.ledger, note) || line.note == note
    {
      OccursAppend(b.ledger, line, note);
    }
  }

  /** A payment debits its own account once. */
  lemma DebitKeeps(b: Books, n: nat)
    requires DriverBooks(b) && n < |b.payouts| && b.payouts[n].status != Paid
    requires BalanceOf(b.balances, b.payouts[n].account) >= b.payouts[n].amount
    ensures DriverBooks(PostPayout(b, n))
  {
    var after := PostPayout(b, n);
    var line := after.ledger[|b.ledger|];
    assert Agrees(b, b.payouts[n].account);
    RunningAppend(b.ledger, line);
    forall k
      ensures Agrees(after, k)
    {
      assert Agrees(b, k);
      BalanceAppend(b.ledger, line, k);
      PayoutPaid(b.payouts, n, b.payouts[n].(status := Paid), k);
    }
    DebitIsOneToOne(b, n);
  }

  lemma DebitIsOneToOne(b: Books, n: nat)
    requires OneToOne(b) && n < |b.payouts| && b.payouts[n].status != Paid
    ensures OneToOne(PostPayout(b, n))
  {
    var line := PostPayout(b, n).ledger[|b.ledger|];
    forall note
      ensures Occurs(b.ledger + [line], note) <==> Occurs(b.ledger, note) || line.note == note
    {
      OccursAppend(b.ledger, line, note);
    }
    assert forall j :: 0 <= j < |b.ledger| ==> b.ledger[j].note != PayoutMade(n);
  }

  /** Everything about drivers that an entry may leave alone. */
  predicate SameDrivers(b: Books, after: Books) {
    after.settlements == b.settlements && after.balances == b.balances && after.ledger == b.ledger && after.payouts == b.payouts
  }

  lemma SameDriversKeep(b: Books, after: Books)
    requires DriverBooks(b) && SameDrivers(b, after)
    ensures DriverBooks(after)
  {
    forall k
      ensures Agrees(after, k)
    {
      assert Agrees(b, k);
    }
  }

  lemma RecordKeeps(b: Books, s: Settlement)
    requires DriverBooks(b)
    ensures DriverBooks(Record(b, s).0)
  {
    if s.order !in b.settlements && Record(b, s).1.Ok? {
      StoredExactly(s.split);
      SameDriversKeep(b, PostPark(b, s));
      CreditKeeps(PostPark(b, s), s, b.settlements[s.order := s]);
    }
  }

  lemma SettleKeeps(b: Books, order: Id, o: Snapshot)
    requires DriverBooks(b)
    ensures DriverBooks(Settle(b, order, o).0)
  {
    if o.price.Some? && o.driver.Some? {
      var split := SplitFare(o.price.value, DriverRate(o), o.platformRate);
      if split.Ok? {
        RecordKeeps(b, Settlement(order, Account(o.driver.value, o.park), split.value));
      }
    }
  }

  lemma NewPayoutKeeps(b: Books, p: Payout)
    requires DriverBooks(b) && p.status != Paid
    ensures DriverBooks(b.(payouts := b.payouts + [p]))
  {
    var after := b.(payouts := b.payouts + [p]);
    forall k
      ensures Agrees(after, k)
    {
      assert Agrees(b, k);
      assert after.payouts[..|b.payouts|] == b.payouts;
    }
  }

  lemma ApprovalKeeps(b: Books, n: nat)
    requires DriverBooks(b) && n < |b.payouts| && b.payouts[n].status != Paid
    ensures DriverBooks(WithStatus(b, n, Approved))
  {
    var after := WithStatus(b, n, Approved);
    forall k
      ensures Agrees(after, k)
    {
      assert Agrees(b, k);
      PayoutPaid(b.payouts, n, b.payouts[n].(status := Approved), k);
    }
  }

  lemma OpeningKeeps(b: Books, account: Account)
    requires DriverBooks(b)
    ensures DriverBooks(OpenAccount(b, account))
  {
    forall k
      ensures Agrees(OpenAccount(b, account), k)
    {
      assert Agrees(b, k);
    }
  }

  lemma CreatePayoutKeeps(b: Books, driver: Id, park: Id, amount: int)
    requires DriverBooks(b)
    ensures DriverBooks(CreatePayout(b, driver, park, amount).0)
  {
    if CreatePayout(b, driver, park, amount).1.Ok? {
      NewPayoutKeeps(b, Payout(Account(driver, Some(park)), amount, Created));
    }
  }

  lemma ApproveKeeps(b: Books, park: Id, n: nat)
    requires DriverBooks(b)
    ensures DriverBooks(Approve(b, park, n).0)
  {
    if Open(b, park, n) {
      ApprovalKeeps(b, n);
    }
  }

  lemma PayKeeps(b: Books, park: Id, n: nat)
    requires DriverBooks(b)
    ensures DriverBooks(Pay(b, park, n).0)
  {
    if Pay(b, park, n).1.Ok? {
      DebitKeeps(b, n);
    }
  }

  lemma OtherEntriesLeaveDrivers(b: Books, e: Entry)
    requires e.Later? || e.NewInvoice? || e.InvoicePaid?
    ensures SameDrivers(b, Book(b, e))
  {
  }

  lemma EntryKeepsDriverBooks(b: Books, e: Entry)
    requires DriverBooks(b)
    ensures DriverBooks(Book(b, e))
  {
    match e {
      case SettleOrder(order, snapshot) => SettleKeeps(b, order, snapshot);
      case FirstVisit(account) => OpeningKeeps(b, account);
      case NewPayout(driver, park, amount) => CreatePayoutKeeps(b, driver, park, amount);
      case ApprovePayout(park, n) => ApproveKeeps(b, park, n);
      case PayPayout(park, n) => PayKeeps(b, park, n);
      case _ =>
        OtherEntriesLeaveDrivers(b, e);
        SameDriversKeep(b, Book(b, e));
    }
  }

  lemma {:induction false} RunKeepsDriverBooks(b: Books, entries: seq<Entry>)
    requires DriverBooks(b)
    ensures DriverBooks(BookAll(b, entries))
    decreases |entries|
  {
    if entries != [] {
      EntryKeepsDriverBooks(b, entries[0]);
      RunKeepsDriverBooks(Book(b, entries[0]), entries[1..]);
    }
  }

  /** Driver money is conserved: after any run of settlements, payouts, approvals, payments, invoices and first visits,
      every balance is what the ledger says, what was earned minus what was paid out, and never negative; every ledger
      line carries the running balance; and settlements and payments correspond to ledger lines one to one. */
  lemma DriverMoneyIsConserved(entries: seq<Entry>, k: Account)
    ensures var b := BookAll(OPENING, entries);
            && 0 <= BalanceOf(b.balances, k) == Balance(b.ledger, k)
            && BalanceOf(b.balances, k) == Earned(b.settlements, k) - PaidOut(b.payouts, k)
            && Running(b.ledger) && OneToOne(b)
  {
    assert DriverBooks(OPENING) by {
      forall j
        ensures Agrees(OPENING, j)
      {
        NothingEarned(OPENING.settlements, j);
      }
    }
    RunKeepsDriverBooks(OPENING, entries);
    assert Agrees(BookAll(OPENING, entries), k);
  }

  // ----- rounding -----

  /** Commission and fee are the rounded shares, and nothing of the fare is lost or made. */
  predicate Rounded(s: Split) {
    && 0 <= s.fee <= s.commission <= s.gross == s.commission + s.net
    && NearestShare(s.gross, s.rate, s.commission) && NearestShare(s.commission, s.feeRate, s.fee)
  }

  predicate AllRounded(b: Books) {
    forall o :: o in b.settlements ==> Rounded(b.settlements[o].split)
  }

  lemma SplitIsRounded(price: Price, driverRate: int, platformRate: int)
    ensures var split := SplitFare(price, driverRate, platformRate);
            split.Ok? ==> Rounded(split.value)
  {
    if SplitFare(price, driverRate, platformRate).Ok? {
      SplitSucceedsIff(price, driverRate, platformRate);
      SplitConserves(price, driverRate, platformRate);
      SplitSucceedsBelowBound(price, driverRate, platformRate);
    }
  }

  lemma RecordKeepsRounded(b: Books, s: Settlement)
    requires AllRounded(b) && Rounded(s.split)
    ensures AllRounded(Record(b, s).0)
  {
    StoredExactly(s.split);
  }

  lemma EntryKeepsRounded(b: Books, e: Entry)
    requires AllRounded(b)
    ensures AllRounded(Book(b, e))
  {
    if e.SettleOrder? && Settleable(e.snapshot) {
      var o := e.snapshot;
      SettleableRecords(b, e.order, o);
      SplitIsRounded(o.price.value, DriverRate(o), o.platformRate);
      RecordKeepsRounded(b, Settlement(e.order, Account(o.driver.value, o.park),
                                       SplitFare(o.price.value, DriverRate(o), o.platformRate).value));
    } else if e.SettleOrder? {
      SettleableRecords(b, e.order, e.snapshot);
    }
  }

  lemma {:induction false} RunKeepsRounded(b: Books, entries: seq<Entry>)
    requires AllRounded(b)
    ensures AllRounded(BookAll(b, entries))
    decreases |entries|
  {
    if entries != [] {
      EntryKeepsRounded(b, entries[0]);
      RunKeepsRounded(Book(b, entries[0]), entries[1..]);
    }
  }

  /** Every settlement ever booked splits its fare without loss, commission and fee to the nearest kopeck: the overflow of
      the split lies beyond what a price column holds. */
  lemma EverySettlementIsRounded(entries: seq<Entry>, order: Id)
    requires order in BookAll(OPENING, entries).settlements
    ensures Rounded(BookAll(OPENING, entries).settlements[order].split)
  {
    RunKeepsRounded(OPENING, entries);
  }
}
