/** The confirmation task of a pending reservation can be lost, in a run of the service as it is: its time is cut to whole
    milliseconds, the reservation's is not: internal/redis/dispatch_queue.go and expirePriceConfirmation of
    internal/dispatch/service.go. */
module LostConfirmations {
  import opened Prelude
  import opened Orders
  import opened Database
  import opened OfferStore
  import opened Dispatch
  import opened DispatchSafety
  import opened DispatchProgress
  import opened City

  // ----- where confirmation tasks come from -----

  predicate Untimed(s: Desk, o: Id) {
    forall t :: t in s.timeouts ==> !IsConfirmation(t, o)
  }

  lemma SearchAddsNoTimer(s: Desk, task: Task, nearby: seq<Id>, o: Id)
    requires Untimed(s, o) && task.order in s.db.orders
    ensures Untimed(Search(s, task, nearby), o)
  {
    SearchTimeouts(s, task, nearby);
  }

  lemma ProcessAddsNoTimer(s: Desk, nearby: seq<Id>, o: Id)
    requires Untimed(s, o)
    ensures Untimed(Process(s, nearby), o)
  {
    if s.queue != [] && s.queue[0].order in s.db.orders {
      var first, rest := s.queue[0], s.(queue := s.queue[1..]);
      if s.db.orders[first.order].status == Searching {
        SearchAddsNoTimer(rest, first, nearby, o);
      } else if CanStartSearch(s.db, first.order) {
        SearchAddsNoTimer(rest.(db := StartSearch(s.db, first.order)), first, nearby, o);
      }
    }
  }

  lemma AcceptAddsNoTimer(s: Desk, p: Id, d: Id, eligible: bool, o: Id)
    requires Untimed(s, o) && (p == o ==> !CanAccept(s, p, d, eligible))
    ensures Untimed(Accept(s, p, d, eligible), o)
  {
    var bid := AcceptBid(s, p, d, eligible);
    if bid.Some? && CanAssign(s.db, bid.value) {
      TakenTables(s, bid.value);
    }
  }

  /** Only an acceptance of the order schedules one. */
  lemma UntimedStays(s: Desk, step: Step, o: Id)
    requires Untimed(s, o) && (step.AcceptOffer? && step.order == o ==> !CanAccept(s, o, step.driver, step.eligible))
    ensures Untimed(Do(s, step), o)
  {
    match step {
      case ProcessTask(nearby) => ProcessAddsNoTimer(s, nearby, o);
      case HandleTimeout(task, offered) => TimeoutTimers(s, task, offered);
      case AcceptOffer(p, d, eligible) => AcceptAddsNoTimer(s, p, d, eligible, o);
      case _ => OtherStepsKeepTimers(s, step);
    }
  }

  predicate NoneAccepts(steps: seq<Step>) {
    forall i :: 0 <= i < |steps| ==> !steps[i].AcceptOffer?
  }

  lemma NoneAcceptsIn(steps: seq<Step>, more: seq<Step>)
    requires NoneAccepts(steps) && NoneAccepts(more)
    ensures NoneAccepts(steps + more)
  {
  }

  lemma {:induction false} UntimedRun(s: Desk, steps: seq<Step>, o: Id)
    requires Untimed(s, o) && NoneAccepts(steps)
    ensures Untimed(DoAll(s, steps), o)
    decreases |steps|
  {
    if steps != [] {
      UntimedStays(s, steps[0], o);
      UntimedRun(Do(s, steps[0]), steps[1..], o);
    }
  }

  // ----- a run that loses one -----

  /** Order 0 is pending and expires then, and of its confirmation tasks just its own waits in the timeout set. */
  predicate FirstAsked(s: Desk, service: NormalConfig, expires: Instant) {
    && s.config == service && s.db.orders.Keys == {0, 1} && AwaitsPassenger(s.db.orders[0]) && PendingTimed(s, 0)
    && s.db.orders[0].expires == Some(expires) && 0 !in s.keys.byOrder
    && (forall t :: t in s.timeouts && IsConfirmation(t, 0) ==> t == OwnTask(0, s.db.orders[0], service))
  }

  /** And order 1 could be searched for. */
  predicate Asked(s: Desk, service: NormalConfig, expires: Instant) {
    FirstAsked(s, service, expires) && CanStartSearch(s.db, 1) && s.db.orders[1].byPark
  }

  /** Order 0 is offered, nothing else has happened, and taking the offer would be this bid. */
  ghost predicate Offered(s: Desk, bid: Bid) {
    && s.db.orders.Keys == {0, 1} && CanStartSearch(s.db, 1) && s.db.orders[1].byPark && Untimed(s, 0)
    && CanAssign(s.db, bid) && bid.order == 0 && bid.needsConfirmation && bid.expires == s.db.now + s.config.confirmationTtl
  }

  lemma TakenKeys(s: Desk, bid: Bid)
    requires CanAssign(s.db, bid)
    ensures bid.order !in Taken(s, bid).keys.byOrder && Taken(s, bid).db.now == s.db.now
  {
  }

  lemma TakenRow(db: Db, bid: Bid)
    requires bid.order in db.orders && bid.driver in db.drivers && bid.needsConfirmation
    ensures var row := AssignedRow(db, bid);
            AwaitsPassenger(row) && row.driver == Some(bid.driver) && row.expires == Some(bid.expires)
  {
  }

  lemma FirstIsAsked(s: Desk, bid: Bid, after: Desk, row: Order, service: NormalConfig, expires: Instant)
    requires service == s.config && expires == bid.expires && Offered(s, bid) && PendingTimed(after, 0) && 0 !in after.keys.byOrder
    requires AwaitsPassenger(row) && row.driver == Some(bid.driver) && row.expires == Some(bid.expires)
    requires after.db.orders == s.db.orders[0 := row] && after.config == s.config
    requires after.timeouts == s.timeouts[Task(0, -1, s.db.now, [bid.driver], None) := Milli(bid.expires)]
    ensures Asked(after, service, expires)
  {
  }

  lemma TakenIsAsked(s: Desk, bid: Bid, after: Desk, service: NormalConfig, expires: Instant)
    requires service == s.config && expires == bid.expires && Offered(s, bid) && after == Taken(s, bid)
    ensures Asked(after, service, expires) && after.db.now == s.db.now
  {
    TakenTables(s, bid);
    TakenKeys(s, bid);
    TakenIsTimed(s, bid, after);
    TakenRow(s.db, bid);
    FirstIsAsked(s, bid, after, AssignedRow(s.db, bid), service, expires);
  }

  lemma AcceptIsTaken(s: Desk) returns (bid: Bid)
    requires CanAccept(s, 0, 0, true) && Idling(s) && Untimed(s, 0)
    ensures Offered(s, bid) && Do(s, AcceptOffer(0, 0, true)) == Taken(s, bid)
  {
    bid := AcceptBid(s, 0, 0, true).value;
  }

  lemma StillAsked(s: Desk, service: NormalConfig, expires: Instant, later: Instant)
    requires Asked(s, service, expires) && s.db.now <= later
    ensures Asked(s.(db := s.db.(now := later)), service, expires)
  {
  }

  lemma FirstOfferIsOpen(s: Desk, d: Id, c: NormalConfig)
    requires s.keys == Save(NO_KEYS, s.db.now, FirstOffer(0, d, s.db.now, c), c.offerTtl)
    ensures OfferOpen(s, 0, d)
  {
  }

  /** The passenger's order is asked for and offered at this instant. */
  lemma OfferedAt(service: NormalConfig, t: Instant) returns (steps: seq<Step>, bid: Bid)
    ensures AllPass(Opening(service), steps, {None})
    ensures var s := DoAll(Opening(service), steps);
            Offered(s, bid) && s.config == service && s.db.now == t && Do(s, AcceptOffer(0, 0, true)) == Taken(s, bid)
  {
    var start := Opening(service);
    steps := Prepared(service);
    OutsidePasses(start, steps, {None});
    Waited(service, steps, Bare(READY, service), t, {None});
    NoneAcceptsIn(steps, [Outside(Tick(t))]);
    steps := steps + [Outside(Tick(t))];
    ReadyAt(service, t);
    NoneAcceptsIn(steps, [Enqueue(0, None)]);
    NoneAcceptsIn(steps + [Enqueue(0, None)], [ProcessTask([0])]);
    steps := Requested(service, steps, 0, None, 0, {None});
    UntimedRun(start, steps, 0);
    bid := FirstOfferIsTaken(DoAll(start, steps), service, t);
  }

  lemma FirstOfferIsTaken(s: Desk, service: NormalConfig, t: Instant) returns (bid: Bid)
    requires Idling(s) && Untimed(s, 0) && s.config == service && s.db == StartSearch(READY.(now := t), 0)
    requires s.keys == Save(NO_KEYS, t, FirstOffer(0, 0, t, service), service.offerTtl)
    ensures Offered(s, bid) && s.db.now == t && Do(s, AcceptOffer(0, 0, true)) == Taken(s, bid)
  {
    ReadyAt(service, t);
    FirstOfferIsOpen(s, 0, service);
    IdlingDriverCanAccept(s, 0, 0);
    bid := AcceptIsTaken(s);
  }

  lemma ReadyAt(service: NormalConfig, t: Instant)
    ensures var db := READY.(now := t);
            && Requestable(Bare(db, service), 0, None, 0, {None})
            && StartSearch(db, 0).now == t && 0 in StartSearch(db, 0).orders
            && StartSearch(db, 0).orders[0].status == Searching && !StartSearch(db, 0).orders[0].byPark
  {
    ReadyIdles(service);
  }

  lemma AcceptedAt(service: NormalConfig, t: Instant) returns (steps: seq<Step>, s: Desk, bid: Bid)
    ensures AllPass(Opening(service), steps, {None}) && DoAll(Opening(service), steps) == Taken(s, bid)
    ensures Offered(s, bid) && s.config == service && s.db.now == t
  {
    steps, bid := OfferedAt(service, t);
    var start, accept := Opening(service), AcceptOffer(0, 0, true);
    s := DoAll(start, steps);
    PassOneMore(start, steps, accept, {None});
    OneMore(start, steps, s, accept, Taken(s, bid));
    steps := steps + [accept];
  }

  /** It is accepted at once, */
  lemma AskedAt(service: NormalConfig, t: Instant, expires: Instant) returns (steps: seq<Step>, asked: Desk)
    requires expires == t + service.confirmationTtl
    ensures AllPass(Opening(service), steps, {None}) && asked == DoAll(Opening(service), steps)
    ensures Asked(asked, service, expires) && asked.db.now == t
  {
    var s, bid;
    steps, s, bid := AcceptedAt(service, t);
    asked := DoAll(Opening(service), steps);
    TakenIsAsked(s, bid, asked, service, expires);
  }

  /** and then it is almost time. */
  lemma AskedUntil(service: NormalConfig, t: Instant, expires: Instant) returns (steps: seq<Step>, asked: Desk)
    requires expires == t + service.confirmationTtl
    ensures AllPass(Opening(service), steps, {None}) && asked == DoAll(Opening(service), steps)
    ensures Asked(asked, service, expires) && asked.db.now == expires - 1
  {
    steps, asked := AskedAt(service, t, expires);
    Waited(service, steps, asked, expires - 1, {None});
    StillAsked(asked, service, expires, expires - 1);
    steps, asked := steps + [Outside(Tick(expires - 1))], asked.(db := asked.db.(now := expires - 1));
  }

  lemma LostOnce(s: Desk, service: NormalConfig, expires: Instant)
    requires FirstAsked(s, service, expires) && s.db.now == expires - 1 && expires % 1000 != 0
    ensures var task := OwnTask(0, s.db.orders[0], s.config);
            var lost := Do(s, HandleTimeout(task, []));
            lost.db == s.db && lost.config == s.config && Untimed(lost, 0) && !PendingTimed(lost, 0)
  {
    EarlyHandlingLosesTheTask(s, 0, []);
    EarlyHandlingDrops(s, HandleTimeout(OwnTask(0, s.db.orders[0], s.config), []), 0);
  }

  /** Whatever the configuration, a run of the service as it is leads to a pending reservation without its task. */
  lemma LostConfirmationIsReached(service: NormalConfig) returns (steps: seq<Step>)
    ensures AllPass(Opening(service), steps, {None})
    ensures var s := DoAll(Opening(service), steps);
            0 in s.db.orders && AwaitsPassenger(s.db.orders[0]) && !PendingTimed(s, 0)
  {
    var t := if service.confirmationTtl % 1000 == 0 then 1 else 0;
    var start, s := Opening(service), Opening(service);
    steps, s := AskedUntil(service, t, t + service.confirmationTtl);
    var handle := HandleTimeout(OwnTask(0, s.db.orders[0], s.config), []);
    LostOnce(s, service, t + service.confirmationTtl);
    PassOneMore(start, steps, handle, {None});
    OneMore(start, steps, s, handle, Do(s, handle));
    steps := steps + [handle];
  }
}
