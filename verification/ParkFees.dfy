/** What every run of the books keeps about parks and the platform: each accrual joins at most one invoice, an invoice is
    the sum of its accruals, and the debt of a park is what is owed while no invoice is paid twice. */
module ParkFees {
  import opened Prelude
  import opened Ledger
  import opened Finance

  type FeeLine = Line<Id, FeeNote>

  // ----- sums over the fee ledger and the invoices -----

  /** Accruals of a park that no invoice has collected. */
  function Uninvoiced(fees: seq<FeeLine>, park: Id): int {
    if fees == [] then 0
    else
      var last := fees[|fees| - 1];
      Uninvoiced(fees[..|fees| - 1], park)
      + if last.owner == park && last.note.Accrual? && last.note.invoice.None? then last.delta else 0
  }

  /** Accruals collected by one invoice. */
  function Collected(fees: seq<FeeLine>, i: nat): int {
    if fees == [] then 0
    else
      var last := fees[|fees| - 1];
      Collected(fees[..|fees| - 1], i) + if last.note.Accrual? && last.note.invoice == Some(i) then last.delta else 0
  }

  /** Accruals of a park collected by any invoice. */
  function Invoiced(fees: seq<FeeLine>, park: Id): int {
    if fees == [] then 0
    else
      var last := fees[|fees| - 1];
      Invoiced(fees[..|fees| - 1], park)
      + if last.owner == park && last.note.Accrual? && last.note.invoice.Some? then last.delta else 0
  }

  /** What a park has paid. */
  function PaidIn(fees: seq<FeeLine>, park: Id): int {
    if fees == [] then 0
    else
      var last := fees[|fees| - 1];
      PaidIn(fees[..|fees| - 1], park) - if last.owner == park && last.note.Payment? then last.delta else 0
  }

  /** Amounts of the invoices of a park; with `unpaidOnly`, of those not marked paid. */
  function Amounts(invoices: seq<Invoice>, park: Id, unpaidOnly: bool): nat {
    if invoices == [] then 0
    else
      var last := invoices[|invoices| - 1];
      Amounts(invoices[..|invoices| - 1], park, unpaidOnly)
      + if last.park == park && !(unpaidOnly && last.paid) then last.amount else 0
  }

  /** The balance of a park is accruals minus payments. */
  lemma {:induction false} BalanceSplits(fees: seq<FeeLine>, park: Id)
    ensures Balance(fees, park) == Uninvoiced(fees, park) + Invoiced(fees, park) - PaidIn(fees, park)
  {
    if fees != [] {
      BalanceSplits(fees[..|fees| - 1], park);
    }
  }

  lemma SumsAppend(fees: seq<FeeLine>, line: FeeLine, park: Id, i: nat)
    ensures var n := line.note;
            var longer := fees + [line];
            && Uninvoiced(longer, park) == Uninvoiced(fees, park)
               + (if line.owner == park && n.Accrual? && n.invoice.None? then line.delta else 0)
            && Invoiced(longer, park) == Invoiced(fees, park)
               + (if line.owner == park && n.Accrual? && n.invoice.Some? then line.delta else 0)
            && Collected(longer, i) == Collected(fees, i) + (if n.Accrual? && n.invoice == Some(i) then line.delta else 0)
            && PaidIn(longer, park) == PaidIn(fees, park) - (if line.owner == park && n.Payment? then line.delta else 0)
  {
    assert (fees + [line])[..|fees|] == fees;
  }

  // ----- collecting accruals into an invoice -----

  lemma {:induction false} AttachedLines(fees: seq<FeeLine>, park: Id, since: Instant, till: Instant, i: nat)
    ensures |Attach(fees, park, since, till, i)| == |fees|
    ensures forall n :: 0 <= n < |fees| ==> Attach(fees, park, since, till, i)[n] == AttachLine(fees[n], park, since, till, i)
  {
    if fees != [] {
      AttachedLines(fees[..|fees| - 1], park, since, till, i);
    }
  }

  /** Collecting moves the bill of the period from the open accruals to the new invoice, and moves nothing else. */
  lemma {:induction false} AttachMoves(fees: seq<FeeLine>, park: Id, since: Instant, till: Instant, i: nat, p: Id, j: nat)
    requires forall n :: 0 <= n < |fees| ==> fees[n].note.Accrual? ==> fees[n].note.invoice != Some(i)
    ensures var after := Attach(fees, park, since, till, i);
            var bill := Bill(fees, park, since, till);
            && Uninvoiced(after, p) == Uninvoiced(fees, p) - (if p == park then bill else 0)
            && Invoiced(after, p) == Invoiced(fees, p) + (if p == park then bill else 0)
            && Collected(after, j) == (if j == i then bill else Collected(fees, j))
            && PaidIn(after, p) == PaidIn(fees, p)
            && Balance(after, p) == Balance(fees, p)
  {
    if fees != [] {
      var front, last := fees[..|fees| - 1], fees[|fees| - 1];
      AttachMoves(front, park, since, till, i, p, j);
      var moved := AttachLine(last, park, since, till, i);
      SumsAppend(Attach(front, park, since, till, i), moved, p, j);
      BalanceAppend(Attach(front, park, since, till, i), moved, p);
    }
  }

  /** Collecting leaves owners, amounts and running balances as they are. */
  lemma AttachKeepsRunning(fees: seq<FeeLine>, park: Id, since: Instant, till: Instant, i: nat)
    requires Running(fees)
    requires forall n :: 0 <= n < |fees| ==> fees[n].note.Accrual? ==> fees[n].note.invoice != Some(i)
    ensures Running(Attach(fees, park, since, till, i))
  {
    var after := Attach(fees, park, since, till, i);
    AttachedLines(fees, park, since, till, i);
    forall n | 0 <= n < |after|
      ensures after[n].after == Balance(after[..n + 1], after[n].owner)
    {
      AttachPrefix(fees, park, since, till, i, n + 1);
      AttachMoves(fees[..n + 1], park, since, till, i, after[n].owner, 0);
    }
  }

  lemma {:induction false} AttachPrefix(fees: seq<FeeLine>, park: Id, since: Instant, till: Instant, i: nat, n: nat)
    requires n <= |fees|
    ensures |Attach(fees, park, since, till, i)| == |fees|
    ensures Attach(fees, park, since, till, i)[..n] == Attach(fees[..n], park, since, till, i)
  {
    AttachedLines(fees, park, since, till, i);
    AttachedLines(fees[..n], park, since, till, i);
  }

  // ----- invariants -----

  /** Lines name invoices of their own park; accruals are not negative and lie in the period of their invoice. */
  predicate LineOk(line: FeeLine, invoices: seq<Invoice>) {
    match line.note
    case Accrual(_, i, at) =>
      && line.delta >= 0
      && (i.Some? ==> i.value < |invoices| && invoices[i.value].park == line.owner
                      && invoices[i.value].since <= at < invoices[i.value].till)
    case Payment(i) => i < |invoices| && invoices[i].park == line.owner && line.delta == 0 - invoices[i].amount
  }

  predicate LinesOk(b: Books) {
    forall n :: 0 <= n < |b.fees| ==> LineOk(b.fees[n], b.invoices)
  }

  /** Each invoice is the sum of the accruals it collected. */
  predicate InvoicesAddUp(b: Books) {
    forall i :: 0 <= i < |b.invoices| ==> b.invoices[i].amount == Collected(b.fees, i)
  }

  ghost predicate ParksAddUp(b: Books) {
    forall p :: Invoiced(b.fees, p) == Amounts(b.invoices, p, false)
  }

  ghost predicate ParkBooksAgree(b: Books) {
    forall p :: BalanceOf(b.parkBalances, p) == Balance(b.parkLedger, p)
  }

  ghost predicate FeeBooks(b: Books) {
    && Running(b.fees) && Running(b.platform) && Running(b.parkLedger)
    && LinesOk(b) && InvoicesAddUp(b) && ParksAddUp(b) && ParkBooksAgree(b)
  }

  /** What a park owes: open accruals and unpaid invoices. */
  function Owed(b: Books, park: Id): int {
    Uninvoiced(b.fees, park) + Amounts(b.invoices, park, true)
  }

  // ----- each entry keeps them -----

  /** A settlement accrues its fee to its park. */
  lemma PostParkKeeps(b: Books, s: Settlement)
    requires FeeBooks(b) && s.split.fee >= 0
    ensures FeeBooks(PostPark(b, s))
  {
    if s.account.park.Some? {
      var park := s.account.park.value;
      PostedKeepsRunning(b.parkLedger, park, s.split.commission, s.order);
      PostedKeepsRunning(b.fees, park, s.split.fee, Accrual(s.order, None, b.now));
      PostedKeepsRunning(b.platform, park, s.split.fee, Some(s.order));
      AccrualKeeps(b, PostPark(b, s), s);
      IncomeKeeps(b, s);
    }
  }

  lemma IncomeKeeps(b: Books, s: Settlement)
    requires ParkBooksAgree(b) && s.account.park.Some?
    ensures ParkBooksAgree(PostPark(b, s))
  {
    var after := PostPark(b, s);
    forall p
      ensures BalanceOf(after.parkBalances, p) == Balance(after.parkLedger, p)
    {
      BalanceAppend(b.parkLedger, after.parkLedger[|b.parkLedger|], p);
      assert BalanceOf(b.parkBalances, p) == Balance(b.parkLedger, p);
    }
  }

  lemma AccrualKeeps(b: Books, after: Books, s: Settlement)
    requires LinesOk(b) && InvoicesAddUp(b) && ParksAddUp(b) && s.split.fee >= 0 && s.account.park.Some?
    requires after.invoices == b.invoices
    requires after.fees == Posted(b.fees, s.account.park.value, s.split.fee, Accrual(s.order, None, b.now))
    ensures LinesOk(after) && InvoicesAddUp(after) && ParksAddUp(after)
  {
    var line := after.fees[|b.fees|];
    forall i | 0 <= i < |after.invoices|
      ensures after.invoices[i].amount == Collected(after.fees, i)
    {
      SumsAppend(b.fees, line, 0, i);
    }
    forall p
      ensures Invoiced(after.fees, p) == Amounts(after.invoices, p, false)
    {
      SumsAppend(b.fees, line, p, 0);
    }
  }

  predicate SameFees(b: Books, after: Books) {
    && after.fees == b.fees && after.platform == b.platform && after.invoices == b.invoices
    && after.parkBalances == b.parkBalances && after.parkLedger == b.parkLedger
  }

  lemma SameFeesKeep(b: Books, after: Books)
    requires FeeBooks(b) && SameFees(b, after)
    ensures FeeBooks(after)
  {
  }

  lemma RecordKeeps(b: Books, s: Settlement)
    requires FeeBooks(b)
    ensures FeeBooks(Record(b, s).0)
  {
    if s.order !in b.settlements && Record(b, s).1.Ok? {
      PostParkKeeps(b, s);
      SameFeesKeep(PostPark(b, s), Record(b, s).0);
    }
  }

  lemma NewInvoiceAmounts(invoices: seq<Invoice>, invoice: Invoice, p: Id, unpaidOnly: bool)
    ensures Amounts(invoices + [invoice], p, unpaidOnly)
         == Amounts(invoices, p, unpaidOnly) + if invoice.park == p && !(unpaidOnly && invoice.paid) then invoice.amount else 0
  {
    assert (invoices + [invoice])[..|invoices|] == invoices;
  }

  lemma CollectedLinesOk(b: Books, invoice: Invoice)
    requires LinesOk(b)
    ensures var fees := Attach(b.fees, invoice.park, invoice.since, invoice.till, |b.invoices|);
            forall n :: 0 <= n < |fees| ==> LineOk(fees[n], b.invoices + [invoice])
  {
    AttachedLines(b.fees, invoice.park, invoice.since, invoice.till, |b.invoices|);
    assert forall n :: 0 <= n < |b.fees| ==> LineOk(b.fees[n], b.invoices);
  }

  lemma NoLineNames(b: Books, i: nat)
    requires LinesOk(b) && i == |b.invoices|
    ensures forall n :: 0 <= n < |b.fees| ==> b.fees[n].note.Accrual? ==> b.fees[n].note.invoice != Some(i)
  {
    forall n | 0 <= n < |b.fees|
      ensures b.fees[n].note.Accrual? ==> b.fees[n].note.invoice != Some(i)
    {
      assert LineOk(b.fees[n], b.invoices);
    }
  }

  lemma CollectedAddsUp(b: Books, after: Books, invoice: Invoice)
    requires LinesOk(b) && InvoicesAddUp(b) && ParksAddUp(b)
    requires invoice.amount == Bill(b.fees, invoice.park, invoice.since, invoice.till)
    requires after.invoices == b.invoices + [invoice]
    requires after.fees == Attach(b.fees, invoice.park, invoice.since, invoice.till, |b.invoices|)
    ensures InvoicesAddUp(after) && ParksAddUp(after)
  {
    var i := |b.invoices|;
    NoLineNames(b, i);
    forall j | 0 <= j < |after.invoices|
      ensures after.invoices[j].amount == Collected(after.fees, j)
    {
      AttachMoves(b.fees, invoice.park, invoice.since, invoice.till, i, 0, j);
    }
    forall p
      ensures Invoiced(after.fees, p) == Amounts(after.invoices, p, false)
    {
      AttachMoves(b.fees, invoice.park, invoice.since, invoice.till, i, p, 0);
      NewInvoiceAmounts(b.invoices, invoice, p, false);
    }
  }

  /** A new invoice collects exactly the open accruals of its park and period. */
  lemma CreateInvoiceKeeps(b: Books, park: Id, since: Instant, till: Instant)
    requires FeeBooks(b)
    ensures FeeBooks(CreateInvoice(b, park, since, till).0)
  {
    var (after, reply) := CreateInvoice(b, park, since, till);
    if reply.Ok? {
      var invoice := after.invoices[|b.invoices|];
      NoLineNames(b, |b.invoices|);
      AttachKeepsRunning(b.fees, park, since, till, |b.invoices|);
      CollectedLinesOk(b, invoice);
      CollectedAddsUp(b, after, invoice);
      BooksOk(b, after);
    }
  }

  /** An invoice leaves nothing of its period open. */
  lemma InvoiceLeavesNothingOpen(b: Books, park: Id, since: Instant, till: Instant, n: nat)
    requires CreateInvoice(b, park, since, till).1.Ok? && n < |b.fees|
    ensures var after := CreateInvoice(b, park, since, till).0.fees;
            n < |after| && !(after[n].owner == park && after[n].note.Accrual? && after[n].note.invoice == None
                             && since <= after[n].note.at && after[n].note.at < till)
  {
    AttachedLines(b.fees, park, since, till, |b.invoices|);
  }

  lemma BooksOk(b: Books, after: Books)
    requires FeeBooks(b) && after.parkBalances == b.parkBalances && after.parkLedger == b.parkLedger
    requires Running(after.fees) && Running(after.platform)
    requires LinesOk(after) && InvoicesAddUp(after) && ParksAddUp(after)
    ensures FeeBooks(after)
  {
  }

  lemma {:induction false} PaidAmounts(invoices: seq<Invoice>, i: nat, p: Id)
    requires i < |invoices|
    ensures var after := invoices[i := invoices[i].(paid := true)];
            && Amounts(after, p, false) == Amounts(invoices, p, false)
            && Amounts(after, p, true)
            == Amounts(invoices, p, true) - if invoices[i].park == p && !invoices[i].paid then invoices[i].amount else 0
  {
    var front := invoices[..|invoices| - 1];
    var after := invoices[i := invoices[i].(paid := true)];
    if i < |front| {
      PaidAmounts(front, i, p);
      assert after[..|front|] == front[i := front[i].(paid := true)];
    } else {
      assert after[..|front|] == front;
    }
  }

  lemma PostPaymentKeeps(b: Books, i: nat)
    requires FeeBooks(b) && i < |b.invoices|
    ensures FeeBooks(PostPayment(b, i))
  {
    var invoice, after := b.invoices[i], PostPayment(b, i);
    PostedKeepsRunning(b.fees, invoice.park, 0 - invoice.amount, Payment(i));
    PostedKeepsRunning(b.platform, invoice.park, invoice.amount, None);
    PaymentKeeps(b, after, i);
    BooksOk(b, after);
  }

  lemma PayInvoiceKeeps(b: Books, i: nat)
    requires FeeBooks(b)
    ensures FeeBooks(PayInvoice(b, i).0)
  {
    if PayInvoice(b, i).1.Ok? {
      PostPaymentKeeps(b, i);
    }
  }

  lemma PaymentKeeps(b: Books, after: Books, i: nat)
    requires LinesOk(b) && InvoicesAddUp(b) && ParksAddUp(b) && i < |b.invoices|
    requires after.invoices == b.invoices[i := b.invoices[i].(paid := true)]
    requires after.fees == Posted(b.fees, b.invoices[i].park, 0 - b.invoices[i].amount, Payment(i))
    ensures LinesOk(after) && InvoicesAddUp(after) && ParksAddUp(after)
  {
    var line := after.fees[|b.fees|];
    forall j | 0 <= j < |after.invoices|
      ensures after.invoices[j].amount == Collected(after.fees, j)
    {
      SumsAppend(b.fees, line, 0, j);
    }
    forall p
      ensures Invoiced(after.fees, p) == Amounts(after.invoices, p, false)
    {
      SumsAppend(b.fees, line, p, 0);
      PaidAmounts(b.invoices, i, p);
    }
  }

  lemma SettleKeeps(b: Books, order: Id, o: Snapshot)
    requires FeeBooks(b)
    ensures FeeBooks(Settle(b, order, o).0)
  {
    var (after, reply) := Settle(b, order, o);
    if after != b {
      RecordKeeps(b, reply.value);
    }
  }

  lemma OtherEntriesLeaveFees(b: Books, e: Entry)
    requires !e.SettleOrder? && !e.NewInvoice? && !e.InvoicePaid?
    ensures SameFees(b, Book(b, e))
  {
  }

  lemma OtherEntriesKeepFees(b: Books, e: Entry)
    requires FeeBooks(b) && !e.SettleOrder? && !e.NewInvoice? && !e.InvoicePaid?
    ensures FeeBooks(Book(b, e))
  {
    OtherEntriesLeaveFees(b, e);
    SameFeesKeep(b, Book(b, e));
  }

  lemma EntryKeepsFeeBooks(b: Books, e: Entry)
    requires FeeBooks(b)
    ensures FeeBooks(Book(b, e))
  {
    match e {
      case SettleOrder(order, snapshot) => SettleKeeps(b, order, snapshot);
      case NewInvoice(park, since, till) => CreateInvoiceKeeps(b, park, since, till);
      case InvoicePaid(i) => PayInvoiceKeeps(b, i);
      case _ => OtherEntriesKeepFees(b, e);
    }
  }

  lemma {:induction false} RunKeepsFeeBooks(b: Books, entries: seq<Entry>)
    requires FeeBooks(b)
    ensures FeeBooks(BookAll(b, entries))
    decreases |entries|
  {
    if entries != [] {
      EntryKeepsFeeBooks(b, entries[0]);
      RunKeepsFeeBooks(Book(b, entries[0]), entries[1..]);
    }
  }

  // ----- the debt -----

  /** Whatever was paid how often: the debt is what is owed, less what was paid beyond the invoices marked paid. */
  lemma DebtIsOwedLessOverpaid(b: Books, park: Id)
    requires FeeBooks(b)
    ensures Debt(b, park) == Owed(b, park) + (Amounts(b.invoices, park, false) - Amounts(b.invoices, park, true)) - PaidIn(b.fees, park)
  {
    LatestIsBalance(b.fees, park);
    BalanceSplits(b.fees, park);
  }

  ghost predicate DebtIsOwed(b: Books) {
    forall p :: Debt(b, p) == Owed(b, p)
  }

  /** Marking an invoice paid keeps the debt right exactly when it was not paid before, or asks for nothing. */
  lemma PaymentKeepsDebtIff(b: Books, i: nat)
    requires FeeBooks(b) && DebtIsOwed(b) && PayInvoice(b, i).1.Ok?
    ensures DebtIsOwed(PayInvoice(b, i).0) <==> !b.invoices[i].paid || b.invoices[i].amount == 0
  {
    var after, park := PayInvoice(b, i).0, b.invoices[i].park;
    PayInvoiceKeeps(b, i);
    forall p
      ensures Debt(after, p) - Owed(after, p) == if p == park && b.invoices[i].paid then 0 - b.invoices[i].amount else 0
    {
      DebtIsOwedLessOverpaid(b, p);
      DebtIsOwedLessOverpaid(after, p);
      SumsAppend(b.fees, after.fees[|b.fees|], p, 0);
      PaidAmounts(b.invoices, i, p);
      assert Debt(b, p) == Owed(b, p);
    }
    assert Debt(after, park) - Owed(after, park) == if b.invoices[i].paid then 0 - b.invoices[i].amount else 0;
  }

  lemma AccrualKeepsDebt(b: Books, s: Settlement)
    requires FeeBooks(b) && DebtIsOwed(b) && s.split.fee >= 0
    ensures DebtIsOwed(PostPark(b, s))
  {
    var after := PostPark(b, s);
    PostParkKeeps(b, s);
    forall p
      ensures Debt(after, p) == Owed(after, p)
    {
      assert Debt(b, p) == Owed(b, p);
      DebtIsOwedLessOverpaid(b, p);
      DebtIsOwedLessOverpaid(after, p);
      if after.fees != b.fees {
        SumsAppend(b.fees, after.fees[|b.fees|], p, 0);
      }
    }
  }

  lemma SettlementKeepsDebt(b: Books, order: Id, o: Snapshot)
    requires FeeBooks(b) && DebtIsOwed(b)
    ensures DebtIsOwed(Settle(b, order, o).0)
  {
    var (after, reply) := Settle(b, order, o);
    if after != b {
      AccrualKeepsDebt(b, reply.value);
      SameDebt(PostPark(b, reply.value), after);
    }
  }

  /** Collecting only moves what is owed from open accruals to an unpaid invoice. */
  lemma CollectingMovesOwed(b: Books, after: Books, invoice: Invoice, p: Id)
    requires LinesOk(b) && !invoice.paid && invoice.amount == Bill(b.fees, invoice.park, invoice.since, invoice.till)
    requires after.invoices == b.invoices + [invoice]
    requires after.fees == Attach(b.fees, invoice.park, invoice.since, invoice.till, |b.invoices|)
    ensures Owed(after, p) == Owed(b, p) && Balance(after.fees, p) == Balance(b.fees, p)
  {
    NoLineNames(b, |b.invoices|);
    AttachMoves(b.fees, invoice.park, invoice.since, invoice.till, |b.invoices|, p, 0);
    NewInvoiceAmounts(b.invoices, invoice, p, true);
  }

  lemma InvoicingKeepsDebt(b: Books, park: Id, since: Instant, till: Instant)
    requires FeeBooks(b) && DebtIsOwed(b)
    ensures DebtIsOwed(CreateInvoice(b, park, since, till).0)
  {
    var (after, reply) := CreateInvoice(b, park, since, till);
    if reply.Ok? {
      CreateInvoiceKeeps(b, park, since, till);
      forall p
        ensures Debt(after, p) == Owed(after, p)
      {
        assert Debt(b, p) == Owed(b, p);
        CollectingMovesOwed(b, after, after.invoices[|b.invoices|], p);
        LatestIsBalance(b.fees, p);
        LatestIsBalance(after.fees, p);
      }
    }
  }

  /** No invoice is marked paid a second time. */
  predicate PaysOnce(b: Books, e: Entry) {
    e.InvoicePaid? && e.i < |b.invoices| ==> !b.invoices[e.i].paid
  }

  predicate AllPayOnce(b: Books, entries: seq<Entry>)
    decreases |entries|
  {
    entries == [] || (PaysOnce(b, entries[0]) && AllPayOnce(Book(b, entries[0]), entries[1..]))
  }

  lemma OtherEntriesKeepDebt(b: Books, e: Entry)
    requires DebtIsOwed(b) && !e.SettleOrder? && !e.NewInvoice? && !e.InvoicePaid?
    ensures DebtIsOwed(Book(b, e))
  {
    OtherEntriesLeaveFees(b, e);
    SameDebt(b, Book(b, e));
  }

  lemma EntryKeepsDebt(b: Books, e: Entry)
    requires FeeBooks(b) && DebtIsOwed(b) && PaysOnce(b, e)
    ensures DebtIsOwed(Book(b, e))
  {
    match e {
      case SettleOrder(order, snapshot) => SettlementKeepsDebt(b, order, snapshot);
      case NewInvoice(park, since, till) => InvoicingKeepsDebt(b, park, since, till);
      case InvoicePaid(i) =>
        if PayInvoice(b, i).1.Ok? {
          PaymentKeepsDebtIff(b, i);
        }
      case _ => OtherEntriesKeepDebt(b, e);
    }
  }

  lemma SameDebt(b: Books, after: Books)
    requires DebtIsOwed(b) && SameFees(b, after)
    ensures DebtIsOwed(after)
  {
    forall p
      ensures Debt(after, p) == Owed(after, p)
    {
      assert Debt(b, p) == Owed(b, p);
    }
  }

  lemma {:induction false} RunKeepsDebt(b: Books, entries: seq<Entry>)
    requires FeeBooks(b) && DebtIsOwed(b) && AllPayOnce(b, entries)
    ensures FeeBooks(BookAll(b, entries)) && DebtIsOwed(BookAll(b, entries))
    decreases |entries|
  {
    if entries != [] {
      EntryKeepsFeeBooks(b, entries[0]);
      EntryKeepsDebt(b, entries[0]);
      RunKeepsDebt(Book(b, entries[0]), entries[1..]);
    }
  }

  lemma {:induction false} UninvoicedNotNegative(fees: seq<FeeLine>, invoices: seq<Invoice>, park: Id)
    requires forall n :: 0 <= n < |fees| ==> LineOk(fees[n], invoices)
    ensures Uninvoiced(fees, park) >= 0
  {
    if fees != [] {
      UninvoicedNotNegative(fees[..|fees| - 1], invoices, park);
    }
  }

  /** After any run that pays no invoice twice, the debt of a park is its open accruals and unpaid invoices, so it is
      never negative; each invoice is the sum of its accruals; and the running balances of all three ledgers are sums. */
  lemma DebtIsWhatIsOwed(entries: seq<Entry>, park: Id)
    requires AllPayOnce(OPENING, entries)
    ensures var b := BookAll(OPENING, entries);
            && FeeBooks(b)
            && 0 <= Debt(b, park) == Uninvoiced(b.fees, park) + Amounts(b.invoices, park, true)
  {
    RunKeepsDebt(OPENING, entries);
    var b := BookAll(OPENING, entries);
    assert Debt(b, park) == Owed(b, park);
    UninvoicedNotNegative(b.fees, b.invoices, park);
  }

  lemma PaymentLowersDebt(b: Books, i: nat)
    requires FeeBooks(b) && PayInvoice(b, i).1.Ok?
    ensures Debt(PayInvoice(b, i).0, b.invoices[i].park) == Debt(b, b.invoices[i].park) - b.invoices[i].amount
  {
    var fees := PayInvoice(b, i).0.fees;
    assert fees[|b.fees|].owner == b.invoices[i].park;
  }

  /** Paying an invoice twice hides open accruals: both payments go through whenever the debt covers them, and the second
      takes its amount off a debt that was owed. */
  lemma DoublePaymentHidesDebt(b: Books, i: nat)
    requires FeeBooks(b) && DebtIsOwed(b) && PayInvoice(b, i).1.Ok? && !b.invoices[i].paid
    requires PayInvoice(PayInvoice(b, i).0, i).1.Ok?
    ensures var park, twice := b.invoices[i].park, PayInvoice(PayInvoice(b, i).0, i).0;
            Debt(twice, park) == Owed(twice, park) - b.invoices[i].amount
  {
    var park, once := b.invoices[i].park, PayInvoice(b, i).0;
    var twice := PayInvoice(once, i).0;
    PayInvoiceKeeps(b, i);
    PaymentKeepsDebtIff(b, i);
    PaymentLowersDebt(once, i);
    assert Debt(once, park) == Owed(once, park);
    SumsAppend(once.fees, twice.fees[|once.fees|], park, 0);
    PaidAmounts(once.invoices, i, park);
  }

  /** A park that owes ten on an invoice and thirty in open accruals can pay the invoice twice. */
  lemma DoublePaymentHappens(b: Books, i: nat)
    requires i < |b.invoices| && b.invoices[i].amount == 1000 && Debt(b, b.invoices[i].park) == 4000
    requires 0 <= Latest(b.platform, b.invoices[i].park) <= 1_000_000
    ensures PayInvoice(b, i).1.Ok? && PayInvoice(PayInvoice(b, i).0, i).1.Ok?
  {
    var once, park := PayInvoice(b, i).0, b.invoices[i].park;
    assert once.fees[|b.fees|].owner == park && once.platform[|b.platform|].owner == park;
  }

  // ----- append-only -----

  /** A line may join an invoice once; nothing else of it ever changes. */
  predicate Continues(line: FeeLine, later: FeeLine) {
    later == line || (line.note.Accrual? && line.note.invoice.None? && later.note.Accrual?
                      && later == line.(note := line.note.(invoice := later.note.invoice)))
  }

  lemma EntryOnlyAppends(b: Books, e: Entry, n: nat)
    requires n < |b.fees|
    ensures var after := Book(b, e).fees;
            n < |after| && Continues(b.fees[n], after[n])
  {
    match e {
      case NewInvoice(park, since, till) => AttachedLines(b.fees, park, since, till, |b.invoices|);
      case SettleOrder(order, snapshot) =>
      case _ =>
    }
  }

  /** An accrual that joined an invoice stays with it for good. */
  lemma {:induction false} InvoicedOnce(b: Books, entries: seq<Entry>, n: nat)
    requires n < |b.fees|
    ensures var after := BookAll(b, entries).fees;
            && n < |after| && Continues(b.fees[n], after[n])
            && (b.fees[n].note.Accrual? && b.fees[n].note.invoice.Some? ==> after[n] == b.fees[n])
    decreases |entries|
  {
    if entries != [] {
      EntryOnlyAppends(b, entries[0], n);
      InvoicedOnce(Book(b, entries[0]), entries[1..], n);
    }
  }
}
