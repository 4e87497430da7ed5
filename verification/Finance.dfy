/** Settlements, driver balances, payouts, park fees and invoices, each transaction all or nothing:
    internal/finance/service.go, internal/repository/finance_repository.go, finance_repository_extended.go and
    driver_park_balance.go. Amounts are kopecks. */
module Finance {
  import opened Prelude
  import opened Ledger
  import opened Commission
  import opened Numeric

  type Id = nat
  type Instant = nat

  datatype FinanceError =
    | OrderIgnored | NoFinalPrice | NoDriver | BadSplit(error: SplitError) | DoesNotFit | NotFound
    | InsufficientBalance | InvalidAmount | DuplicatePeriod

  // ----- rows -----

  /** A driver's account with a park; a driver without a park has one of his own. */
  datatype Account = Account(driver: Id, park: Option<Id>)

  /** A settlement as the service hands it over; park income is the whole commission. */
  datatype Settlement = Settlement(order: Id, account: Account, split: Split)

  datatype DriverNote = Income(order: Id) | PayoutMade(payout: nat)

  datatype PayoutStatus = Created | Approved | Paid

  datatype Payout = Payout(account: Account, amount: nat, status: PayoutStatus)

  /** A line of the fee ledger: an accrual may join an invoice later, a payment names the invoice it pays. */
  datatype FeeNote = Accrual(order: Id, invoice: Option<nat>, at: Instant) | Payment(paid: nat)

  datatype Invoice = Invoice(park: Id, amount: nat, since: Instant, till: Instant, paid: bool)

  datatype Books = Books(
    now: Instant,
    settlements: map<Id, Settlement>,
    balances: map<Account, int>, ledger: seq<Line<Account, DriverNote>>, payouts: seq<Payout>,
    parkBalances: map<Id, int>, parkLedger: seq<Line<Id, Id>>,
    fees: seq<Line<Id, FeeNote>>, platform: seq<Line<Id, Option<Id>>>, invoices: seq<Invoice>)

  const OPENING: Books := Books(0, map[], map[], [], [], map[], [], [], [], [])

  // ----- columns -----

  /** What a money column holds after an amount was written to it, or None when the write fails: the amount must fit,
      and constraints refuse negative ones. */
  function Money(amount: int): Option<int> {
    if 0 <= amount < MONEY_LIMIT then Some(amount) else None
  }

  /** What a percent column holds; a constraint keeps it at most one hundred. */
  function Percent(rate: int): Option<int> {
    if 0 <= rate <= FULL then Some(rate) else None
  }

  /** An amount goes to its column as text, and that is what the column then holds. */
  lemma MoneyColumn(amount: int)
    requires MIN_INT64 <= amount <= MAX_INT64
    ensures Money(amount) == var stored := Stored(MoneyText(amount), MONEY_LIMIT);
                             if stored.Some? && stored.value >= 0 then stored else None
  {
    MoneyReadBack(amount);
  }

  lemma PercentColumn(rate: nat)
    ensures Percent(rate) == var stored := Stored(BasisPointsText(rate), RATE_LIMIT);
                             if stored.Some? && stored.value <= FULL then stored else None
  {
    RateReadBack(rate);
  }

  /** The settlement as its columns hold it, and as it is read back. */
  function StoredSplit(s: Split): Option<Split> {
    var gross, rate, commission := Money(s.gross), Percent(s.rate), Money(s.commission);
    var net, feeRate, fee := Money(s.net), Percent(s.feeRate), Money(s.fee);
    if gross.Some? && rate.Some? && commission.Some? && net.Some? && feeRate.Some? && fee.Some?
    then Some(Split(gross.value, rate.value, commission.value, net.value, feeRate.value, fee.value))
    else None
  }

  function BalanceOf<K>(balances: map<K, int>, k: K): int {
    if k in balances then balances[k] else 0
  }

  // ----- settlement -----

  /** Park, fee and platform books of a settlement; an order without a park has none. */
  function PostPark(b: Books, s: Settlement): Books {
    if s.account.park.None? then b
    else
      var park := s.account.park.value;
      b.(parkBalances := b.parkBalances[park := BalanceOf(b.parkBalances, park) + s.split.commission],
         parkLedger := Posted(b.parkLedger, park, s.split.commission, s.order),
         fees := Posted(b.fees, park, s.split.fee, Accrual(s.order, None, b.now)),
         platform := Posted(b.platform, park, s.split.fee, Some(s.order)))
  }

  predicate ParkFits(b: Books, s: Settlement) {
    s.account.park.Some? ==>
      && Money(Latest(b.parkLedger, s.account.park.value) + s.split.commission).Some?
      && Money(Latest(b.fees, s.account.park.value) + s.split.fee).Some?
      && Money(Latest(b.platform, s.account.park.value) + s.split.fee).Some?
  }

  function PostDriver(b: Books, s: Settlement): Books {
    var balance := BalanceOf(b.balances, s.account) + s.split.net;
    b.(balances := b.balances[s.account := balance],
       ledger := b.ledger + [Line(s.account, s.split.net, balance, Income(s.order))])
  }

  predicate DriverFits(b: Books, s: Settlement) {
    Money(BalanceOf(b.balances, s.account) + s.split.net).Some?
  }

  /** The repository's transaction: an order that is settled already is read back and nothing is written. */
  function Record(b: Books, s: Settlement): (Books, Result<Settlement, FinanceError>) {
    if s.order in b.settlements then (b, Ok(b.settlements[s.order]))
    else
      var stored := StoredSplit(s.split);
      if stored.None? || !ParkFits(b, s) || !DriverFits(b, s) then (b, Err(DoesNotFit))
      else
        (PostDriver(PostPark(b, s), s).(settlements := b.settlements[s.order := s.(split := stored.value)]), Ok(s))
  }

  /** What a price column can hold. */
  type Price = x: int | -MONEY_LIMIT < x < MONEY_LIMIT

  /** What the service reads of an order. */
  datatype Snapshot = Snapshot(completed: bool, price: Option<Price>, driver: Option<Id>, park: Option<Id>,
                               driverRate: Option<int>, platformRate: int)

  function DriverRate(o: Snapshot): int {
    if o.driverRate.Some? then o.driverRate.value else 0
  }

  function Settle(b: Books, order: Id, o: Snapshot): (Books, Result<Settlement, FinanceError>) {
    if !o.completed then (b, Err(OrderIgnored))
    else if o.price.None? then (b, Err(NoFinalPrice))
    else if o.driver.None? then (b, Err(NoDriver))
    else
      var split := SplitFare(o.price.value, DriverRate(o), o.platformRate);
      if split.Err? then (b, Err(BadSplit(split.error)))
      else Record(b, Settlement(order, Account(o.driver.value, o.park), split.value))
  }

  // ----- payouts -----

  /** A first visit to a park opens an empty account there. */
  function OpenAccount(b: Books, account: Account): Books {
    if account in b.balances then b else b.(balances := b.balances[account := 0])
  }

  function CreatePayout(b: Books, driver: Id, park: Id, amount: int): (Books, Result<nat, FinanceError>) {
    var account := Account(driver, Some(park));
    if amount <= 0 then (b, Err(InvalidAmount))
    else if account !in b.balances then (b, Err(NotFound))
    else if b.balances[account] < amount then (b, Err(InsufficientBalance))
    else if Money(amount).None? then (b, Err(DoesNotFit))
    else (b.(payouts := b.payouts + [Payout(account, amount, Created)]), Ok(|b.payouts|))
  }

  /** A payout of the park that is not paid yet; approving twice is allowed. */
  predicate Open(b: Books, park: Id, n: nat) {
    n < |b.payouts| && b.payouts[n].account.park == Some(park) && b.payouts[n].status != Paid
  }

  function WithStatus(b: Books, n: nat, status: PayoutStatus): Books
    requires n < |b.payouts|
  {
    b.(payouts := b.payouts[n := b.payouts[n].(status := status)])
  }

  function Approve(b: Books, park: Id, n: nat): (Books, Result<Payout, FinanceError>) {
    if Open(b, park, n) then (WithStatus(b, n, Approved), Ok(b.payouts[n].(status := Approved))) else (b, Err(NotFound))
  }

  function PostPayout(b: Books, n: nat): Books
    requires n < |b.payouts|
  {
    var p := b.payouts[n];
    var balance := BalanceOf(b.balances, p.account) - p.amount;
    WithStatus(b, n, Paid).(
      balances := b.balances[p.account := balance],
      ledger := b.ledger + [Line(p.account, 0 - p.amount, balance, PayoutMade(n))])
  }

  /** Why an account cannot pay an amount. */
  function Refusal(balances: map<Account, int>, account: Account, amount: nat): Option<FinanceError> {
    if account !in balances || balances[account] < amount then Some(InsufficientBalance)
    else if Money(balances[account] - amount).None? then Some(DoesNotFit)
    else None
  }

  function Pay(b: Books, park: Id, n: nat): (Books, Result<Payout, FinanceError>) {
    if !Open(b, park, n) then (b, Err(NotFound))
    else
      var p := b.payouts[n];
      var refused := Refusal(b.balances, p.account, p.amount);
      if refused.Some? then (b, Err(refused.value)) else (PostPayout(b, n), Ok(p.(status := Paid)))
  }

  // ----- invoices -----

  predicate Billable(line: Line<Id, FeeNote>, park: Id, since: Instant, till: Instant) {
    line.owner == park && line.note.Accrual? && line.note.invoice.None? && since <= line.note.at < till
  }

  /** The sum of the accruals that an invoice would collect. */
  function Bill(fees: seq<Line<Id, FeeNote>>, park: Id, since: Instant, till: Instant): int {
    if fees == [] then 0
    else
      var last := fees[|fees| - 1];
      Bill(fees[..|fees| - 1], park, since, till) + if Billable(last, park, since, till) then last.delta else 0
  }

  function AttachLine(line: Line<Id, FeeNote>, park: Id, since: Instant, till: Instant, i: nat): Line<Id, FeeNote> {
    if Billable(line, park, since, till) then line.(note := line.note.(invoice := Some(i))) else line
  }

  function Attach(fees: seq<Line<Id, FeeNote>>, park: Id, since: Instant, till: Instant, i: nat): seq<Line<Id, FeeNote>> {
    if fees == [] then []
    else Attach(fees[..|fees| - 1], park, since, till, i) + [AttachLine(fees[|fees| - 1], park, since, till, i)]
  }

  function CreateInvoice(b: Books, park: Id, since: Instant, till: Instant): (Books, Result<nat, FinanceError>) {
    var amount := Bill(b.fees, park, since, till);
    if Money(amount).None? then (b, Err(DoesNotFit))
    else if exists i :: 0 <= i < |b.invoices| && b.invoices[i].park == park && b.invoices[i].since == since && b.invoices[i].till == till
    then (b, Err(DuplicatePeriod))
    else
      (b.(invoices := b.invoices + [Invoice(park, amount, since, till, false)],
          fees := Attach(b.fees, park, since, till, |b.invoices|)),
       Ok(|b.invoices|))
  }

  /** The invoice is marked paid, and a payment is posted on both ledgers. */
  function PostPayment(b: Books, i: nat): Books
    requires i < |b.invoices|
  {
    var invoice := b.invoices[i];
    b.(invoices := b.invoices[i := invoice.(paid := true)],
       fees := Posted(b.fees, invoice.park, 0 - invoice.amount, Payment(i)),
       platform := Posted(b.platform, invoice.park, invoice.amount, None))
  }

  predicate PaymentFits(b: Books, invoice: Invoice) {
    && Money(Latest(b.fees, invoice.park) - invoice.amount).Some?
    && Money(Latest(b.platform, invoice.park) + invoice.amount).Some?
  }

  /** The old status of the invoice plays no part. */
  function PayInvoice(b: Books, i: nat): (Books, Result<Invoice, FinanceError>) {
    if i >= |b.invoices| then (b, Err(NotFound))
    else if !PaymentFits(b, b.invoices[i]) then (b, Err(DoesNotFit))
    else (PostPayment(b, i), Ok(b.invoices[i].(paid := true)))
  }

  function Debt(b: Books, park: Id): int {
    Latest(b.fees, park)
  }

  // ----- the machine -----

  datatype Entry =
    | Later(at: Instant)
    | SettleOrder(order: Id, snapshot: Snapshot)
    | FirstVisit(account: Account)
    | NewPayout(driver: Id, park: Id, amount: int)
    | ApprovePayout(park: Id, n: nat)
    | PayPayout(park: Id, n: nat)
    | NewInvoice(park: Id, since: Instant, till: Instant)
    | InvoicePaid(i: nat)

  function Book(b: Books, e: Entry): Books {
    match e
    case Later(at) => if at >= b.now then b.(now := at) else b
    case SettleOrder(order, snapshot) => Settle(b, order, snapshot).0
    case FirstVisit(account) => OpenAccount(b, account)
    case NewPayout(driver, park, amount) => CreatePayout(b, driver, park, amount).0
    case ApprovePayout(park, n) => Approve(b, park, n).0
    case PayPayout(park, n) => Pay(b, park, n).0
    case NewInvoice(park, since, till) => CreateInvoice(b, park, since, till).0
    case InvoicePaid(i) => PayInvoice(b, i).0
  }

  function BookAll(b: Books, entries: seq<Entry>): Books
    decreases |entries|
  {
    if entries == [] then b else BookAll(Book(b, entries[0]), entries[1..])
  }
}
