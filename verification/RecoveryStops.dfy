/** Where recovery ends: runs of the service as it is in which the recovery worker stops for good, and a reservation that
    then waits until somebody acts: internal/dispatch/worker.go, Run and runStaleOrderRecoveryWorker. */
module RecoveryStops {
  import opened Prelude
  import opened Database
  import opened Edges
  import opened OfferStore
  import opened Dispatch
  import opened DispatchSafety
  import opened DispatchProgress
  import opened LostConfirmations
  import opened Recovery

  // ----- what resolves a lapsed reservation -----

  /** Its passenger declines, its passenger or driver cancels, somebody expires it, or its own timer is handled. */
  predicate Resolves(s: Desk, step: Step, o: Id) {
    && o in s.db.orders
    && (|| step == DeclineOrderPrice(o, s.db.orders[o].passenger)
        || step == ExpireOrderPrice(o)
        || CancelsPending(s, step, o)
        || (step.HandleTimeout? && IsConfirmation(step.task, o) && IsDue(s, step.task)
            && ListsAll(step.offered, Members(s.keys.byOrder, s.db.now, o))))
  }

  /** A transaction that leaves a lapsed reservation alone. */
  predicate Ignores(db: Db, a: Action, o: Id) {
    (a.Free? ==> a.o != o) && ((a.PassengerCancel? || a.Drive?) ==> !Cancels(db, a, o))
  }

  lemma LapsedEdge(before: Order, after: Order, a: Action, o: Id, now: Instant)
    requires Edge(before, after, a, o, now) && AwaitsPassenger(before) && before.expires.Some? && before.expires.value <= now
    requires !a.PassengerCancel? && !a.Drive? && (a.Free? ==> a.o != o)
    ensures after == before
  {
  }

  lemma UncancelledStays(db: Db, a: Action, o: Id)
    requires o in db.orders && AwaitsPassenger(db.orders[o]) && (a.PassengerCancel? || a.Drive?) && !Cancels(db, a, o)
    ensures o in Apply(db, a).orders && Apply(db, a).orders[o] == db.orders[o]
  {
  }

  lemma IgnoredStays(db: Db, a: Action, o: Id)
    requires Expired(db, o) && Ignores(db, a, o)
    ensures Expired(Apply(db, a), o) && Apply(db, a).orders[o] == db.orders[o]
  {
    if a.PassengerCancel? || a.Drive? {
      UncancelledStays(db, a, o);
    } else {
      ActionEdge(db, a, o);
      LapsedEdge(db.orders[o], Apply(db, a).orders[o], a, o, db.now);
    }
    Edges.ClockAdvances(db, a);
  }

  lemma UnresolvedTimeoutStays(s: Desk, task: Task, offered: seq<Id>, o: Id)
    requires Expired(s.db, o) && !Resolves(s, HandleTimeout(task, offered), o)
    ensures var after := Timeout(s, task, offered).db; Expired(after, o) && after.orders[o] == s.db.orders[o]
  {
  }

  lemma ProcessingStays(s: Desk, nearby: seq<Id>, o: Id)
    requires Expired(s.db, o)
    ensures var after := Process(s, nearby).db; Expired(after, o) && after.orders[o] == s.db.orders[o]
  {
    var a, b := ProcessIsTransactions(s, nearby);
    IgnoredStays(s.db, a, o);
    IgnoredStays(Apply(s.db, a), b, o);
  }

  lemma AcceptingStays(s: Desk, p: Id, d: Id, eligible: bool, o: Id)
    requires Expired(s.db, o)
    ensures var after := Accept(s, p, d, eligible).db; Expired(after, o) && after.orders[o] == s.db.orders[o]
  {
    var bid := AcceptBid(s, p, d, eligible);
    if bid.Some? && CanAssign(s.db, bid.value) {
      TakenIsTransactions(s, bid.value);
      IgnoredStays(s.db, Reserve(bid.value), o);
      IgnoredStays(Apply(s.db, Reserve(bid.value)), MarkBusy(bid.value.driver), o);
    }
  }

  lemma AnswerStays(s: Desk, step: Step, o: Id)
    requires Expired(s.db, o) && Tidy(s.db.orders[o]) && !Resolves(s, step, o)
    requires step.DeclineOrderPrice? || step.ExpireOrderPrice?
    ensures var after := Do(s, step).db; Expired(after, o) && after.orders[o] == s.db.orders[o]
  {
    if step.order != o {
      ReleasingOtherStays(s, step.order, o);
    }
  }

  lemma ReleasingOtherStays(s: Desk, p: Id, o: Id)
    requires Expired(s.db, o) && p != o
    ensures forall d :: var after := ReleasePrice(s, p, d).db; Expired(after, o) && after.orders[o] == s.db.orders[o]
  {
  }

  lemma QuietCallStays(s: Desk, step: Step, o: Id)
    requires Expired(s.db, o)
    requires step.Enqueue? || step.RejectOffer? || step.ConfirmOrderPrice? || step.StopDispatch?
    ensures var after := Do(s, step).db; Expired(after, o) && after.orders[o] == s.db.orders[o]
  {
  }

  lemma UnresolvedStays(s: Desk, step: Step, o: Id)
    requires Expired(s.db, o) && Tidy(s.db.orders[o]) && !Resolves(s, step, o)
    ensures var after := Do(s, step).db; Expired(after, o) && after.orders[o] == s.db.orders[o]
  {
    match step {
      case ProcessTask(nearby) => ProcessingStays(s, nearby, o);
      case HandleTimeout(task, offered) => UnresolvedTimeoutStays(s, task, offered, o);
      case AcceptOffer(p, d, eligible) => AcceptingStays(s, p, d, eligible, o);
      case Outside(a) =>
        if Foreign(a) {
          IgnoredStays(s.db, a, o);
        }
      case DeclineOrderPrice(p, passenger) => AnswerStays(s, step, o);
      case ExpireOrderPrice(p) => AnswerStays(s, step, o);
      case _ => QuietCallStays(s, step, o);
    }
  }

  /** Exactly these steps change the row of a lapsed reservation. */
  lemma LapsedRowChangesIff(s: Desk, step: Step, o: Id)
    requires DeskTidy(s.db) && Expired(s.db, o)
    ensures o in Do(s, step).db.orders
    ensures Do(s, step).db.orders[o] != s.db.orders[o] <==> Resolves(s, step, o)
  {
    assert Tidy(s.db.orders[o]);
    if Resolves(s, step, o) {
      ResolvingChanges(s, step, o);
    } else {
      UnresolvedStays(s, step, o);
    }
  }

  lemma ResolvingChanges(s: Desk, step: Step, o: Id)
    requires DeskTidy(s.db) && Expired(s.db, o) && Resolves(s, step, o)
    ensures o in Do(s, step).db.orders && Do(s, step).db.orders[o] != s.db.orders[o]
  {
    if CancelsPending(s, step, o) {
      AbandonsIff(s, step, o);
    } else {
      ReleasingChanges(s, step, o);
    }
  }

  lemma ReleasingChanges(s: Desk, step: Step, o: Id)
    requires Expired(s.db, o) && Tidy(s.db.orders[o]) && Resolves(s, step, o) && !step.Outside?
    ensures o in Do(s, step).db.orders && Do(s, step).db.orders[o] != s.db.orders[o]
  {
  }

  // ----- waiting for good -----

  /** Its passenger or its driver acts on the order; nothing else but the worker ever calls for its expiry. */
  predicate ActsOn(step: Step, o: Id) {
    Answers(step, o) || step == ExpireOrderPrice(o)
  }

  predicate LeftAlone(beats: seq<Beat>, o: Id) {
    forall i :: 0 <= i < |beats| && beats[i].Other? ==> !ActsOn(beats[i].step, o)
  }

  /** A lapsed reservation without a timer, and a worker that has stopped. */
  ghost predicate Stranded(w: Watch, o: Id) {
    DeskTidy(w.desk.db) && w.stage.Stopped? && Expired(w.desk.db, o) && Untimed(w.desk, o)
  }

  lemma StrandedStays(w: Watch, b: Beat, o: Id)
    requires Stranded(w, o) && (b.Other? ==> !ActsOn(b.step, o))
    ensures Stranded(Turn(w, b), o) && Turn(w, b).desk.db.orders[o] == w.desk.db.orders[o]
  {
    if b.Other? {
      assert Tidy(w.desk.db.orders[o]);
      StepKeepsTidy(w.desk, b.step);
      UnresolvedStays(w.desk, b.step, o);
      PendingIsNotTaken(w.desk, b.step, o);
      UntimedStays(w.desk, b.step, o);
    }
  }

  lemma PendingIsNotTaken(s: Desk, step: Step, o: Id)
    requires Expired(s.db, o)
    ensures step.AcceptOffer? && step.order == o ==> !CanAccept(s, o, step.driver, step.eligible)
  {
  }

  /** It waits as it is for as long as neither its passenger nor its driver acts. */
  lemma {:induction false} StrandedWaits(w: Watch, beats: seq<Beat>, o: Id)
    requires Stranded(w, o) && LeftAlone(beats, o)
    ensures Stranded(TurnAll(w, beats), o) && TurnAll(w, beats).desk.db.orders[o] == w.desk.db.orders[o]
    decreases |beats|
  {
    if beats != [] {
      StrandedStays(w, beats[0], o);
      StrandedWaits(Turn(w, beats[0]), beats[1..], o);
    }
  }

  // ----- runs from the opening -----

  function Others(steps: seq<Step>): seq<Beat> {
    seq(|steps|, i requires 0 <= i < |steps| => Other(steps[i]))
  }

  function Start(service: NormalConfig): Watch {
    Watch(Opening(service), Resting)
  }

  /** A run of the service as it is, the recovery worker included, leads here. */
  ghost predicate Reached(service: NormalConfig, beats: seq<Beat>, w: Watch) {
    TurnAll(Start(service), beats) == w && AllPass(Opening(service), CallsOf(Start(service), beats), {None})
  }

  lemma {:induction false} OthersRun(s: Desk, steps: seq<Step>)
    ensures TurnAll(Watch(s, Resting), Others(steps)) == Watch(DoAll(s, steps), Resting)
    ensures CallsOf(Watch(s, Resting), Others(steps)) == steps
    decreases |steps|
  {
    if steps != [] {
      assert Others(steps)[0] == Other(steps[0]) && Others(steps)[1..] == Others(steps[1..]);
      OthersRun(Do(s, steps[0]), steps[1..]);
      assert steps == [steps[0]] + steps[1..];
    }
  }

  lemma {:induction false} CallsOneMore(w: Watch, beats: seq<Beat>, last: Beat)
    ensures CallsOf(w, beats + [last]) == CallsOf(w, beats) + [CallOf(TurnAll(w, beats), last)]
    decreases |beats|
  {
    var longer := beats + [last];
    if beats == [] {
      assert longer == [last] && longer[1..] == [];
    } else {
      assert longer[0] == beats[0] && longer[1..] == beats[1..] + [last];
      CallsOneMore(Turn(w, beats[0]), beats[1..], last);
    }
  }

  lemma ReachMore(service: NormalConfig, beats: seq<Beat>, w: Watch, b: Beat, next: Watch)
    requires Reached(service, beats, w) && next == Turn(w, b) && Passes(w.desk, CallOf(w, b), {None})
    ensures Reached(service, beats + [b], next)
  {
    TurnOneMore(Start(service), beats, b);
    CallsOneMore(Start(service), beats, b);
    RecoveryIsARun(Start(service), beats);
    PassOneMore(Opening(service), CallsOf(Start(service), beats), CallOf(w, b), {None});
  }

  lemma ReachedIsTidy(service: NormalConfig, beats: seq<Beat>, w: Watch)
    requires Reached(service, beats, w)
    ensures DeskTidy(w.desk.db)
  {
    RecoveryIsARun(Start(service), beats);
    RunKeepsTidy(Opening(service), CallsOf(Start(service), beats));
  }

  // ----- a cancellation before a turn -----

  lemma LapsedAlone(s: Desk, service: NormalConfig, expires: Instant)
    requires Asked(s, service, expires) && expires <= s.db.now
    ensures Expired(s.db, 0) && ListsEarliest(s.db, [0], LISTED)
  {
    assert ExpiredOrders(s.db) == {0};
  }

  lemma CancelledIsAbandoned(s: Desk, service: NormalConfig, expires: Instant)
    requires Asked(s, service, expires) && expires <= s.db.now && DeskTidy(s.db)
    ensures var after := Do(s, Outside(PassengerCancel(0, s.db.orders[0].passenger)));
            0 in after.db.orders && ExpireFails(after, 0)
  {
    var cancel := Outside(PassengerCancel(0, s.db.orders[0].passenger));
    AbandonsIff(s, cancel, 0);
    CancellingKeepsExpiry(s, cancel, 0);
    StepKeepsTidy(s, cancel);
    StepAdvances(s, cancel);
    ExpireFailsIff(Do(s, cancel), 0);
  }

  /** The order's reservation has lapsed, the worker has just listed it, and it is nobody else's turn. */
  lemma ListedAlone(service: NormalConfig) returns (beats: seq<Beat>, w: Watch)
    ensures Reached(service, beats, w) && w.stage == Expiring([0])
    ensures Asked(w.desk, service, service.confirmationTtl) && service.confirmationTtl <= w.desk.db.now
  {
    var steps, s := AskedAt(service, 0, service.confirmationTtl);
    var late := Outside(Tick(service.confirmationTtl));
    OthersRun(Opening(service), steps);
    beats, w := Others(steps), Watch(s, Resting);
    StillAsked(s, service, service.confirmationTtl, service.confirmationTtl);
    var later := s.(db := s.db.(now := service.confirmationTtl));
    ReachMore(service, beats, w, Other(late), Watch(later, Resting));
    beats, w := beats + [Other(late)], Watch(later, Resting);
    LapsedAlone(later, service, service.confirmationTtl);
    ReachMore(service, beats, w, StartRound([0]), Watch(later, Expiring([0])));
    beats, w := beats + [StartRound([0])], Watch(later, Expiring([0]));
  }

  /** Whatever the configuration: the passenger of a listed lapsed reservation cancels before its turn, and the worker
      stops for good. */
  lemma CancellationStopsTheWorker(service: NormalConfig) returns (beats: seq<Beat>, passenger: Id, w: Watch)
    ensures Reached(service, beats + [Other(Outside(PassengerCancel(0, passenger)))] + [ExpireOne], w) && w.stage.Stopped?
  {
    beats, w := ListedAlone(service);
    passenger := w.desk.db.orders[0].passenger;
    var cancel := Outside(PassengerCancel(0, passenger));
    ReachedIsTidy(service, beats, w);
    CancelledIsAbandoned(w.desk, service, service.confirmationTtl);
    var cancelled := Watch(Do(w.desk, cancel), Expiring([0]));
    ReachMore(service, beats, w, Other(cancel), cancelled);
    w := cancelled.(stage := Stopped);
    ReachMore(service, beats + [Other(cancel)], cancelled, ExpireOne, w);
  }

  // ----- a reservation left alone -----

  lemma NothingLapsed(s: Desk, service: NormalConfig, expires: Instant)
    requires Asked(s, service, expires) && s.db.now < expires
    ensures ListsEarliest(s.db, [], LISTED)
  {
    assert ExpiredOrders(s.db) == {};
  }

  /** Order 1 is requested too, */
  lemma SecondSearches(s: Desk, service: NormalConfig, expires: Instant, next: Desk)
    requires Asked(s, service, expires) && next == Do(s, Enqueue(1, None))
    ensures FirstAsked(next, service, expires) && next.db.now == s.db.now && SearchingOrders(next.db) == {1}
  {
  }

  /** and its passenger cancels it. */
  lemma SecondIsCancelled(s: Desk, service: NormalConfig, expires: Instant, next: Desk)
    requires FirstAsked(s, service, expires) && SearchingOrders(s.db) == {1}
    requires next == Do(s, Outside(PassengerCancel(1, s.db.orders[1].passenger)))
    ensures FirstAsked(next, service, expires) && next.db.now == s.db.now && !CanStartSearch(next.db, 1)
  {
    assert 1 in SearchingOrders(s.db);
    assert next.db == Cancel(s.db, 1, s.db.orders[1].passenger);
  }

  /** A round that finds nothing lapsed begins, the second order is requested, */
  lemma SecondIsRequested(service: NormalConfig, t: Instant) returns (beats: seq<Beat>, w: Watch)
    ensures Reached(service, beats, w) && w.stage == Expiring([]) && SearchingOrders(w.desk.db) == {1}
    ensures FirstAsked(w.desk, service, t + service.confirmationTtl) && w.desk.db.now == t + service.confirmationTtl - 1
  {
    var expires := t + service.confirmationTtl;
    var steps, s := AskedUntil(service, t, expires);
    OthersRun(Opening(service), steps);
    NothingLapsed(s, service, expires);
    ReachMore(service, Others(steps), Watch(s, Resting), StartRound([]), Watch(s, Expiring([])));
    beats := Others(steps) + [StartRound([])];
    w := Watch(Do(s, Enqueue(1, None)), Expiring([]));
    SecondSearches(s, service, expires, w.desk);
    ReachMore(service, beats, Watch(s, Expiring([])), Other(Enqueue(1, None)), w);
    beats := beats + [Other(Enqueue(1, None))];
  }

  /** and the round lists it as searching; */
  lemma SecondIsListed(service: NormalConfig, t: Instant) returns (beats: seq<Beat>, w: Watch)
    ensures Reached(service, beats, w) && w.stage == Asking([1]) && SearchingOrders(w.desk.db) == {1}
    ensures FirstAsked(w.desk, service, t + service.confirmationTtl) && w.desk.db.now == t + service.confirmationTtl - 1
  {
    beats, w := SecondIsRequested(service, t);
    ReachMore(service, beats, w, ListSearching([1]), w.(stage := Asking([1])));
    beats, w := beats + [ListSearching([1])], w.(stage := Asking([1]));
  }

  /** its passenger cancels it before its turn, and the worker stops, */
  lemma StoppedWhileAsked(service: NormalConfig, t: Instant) returns (beats: seq<Beat>, w: Watch)
    ensures Reached(service, beats, w) && w.stage.Stopped?
    ensures FirstAsked(w.desk, service, t + service.confirmationTtl) && w.desk.db.now == t + service.confirmationTtl - 1
  {
    beats, w := SecondIsListed(service, t);
    assert 1 in SearchingOrders(w.desk.db);
    var cancel := Outside(PassengerCancel(1, w.desk.db.orders[1].passenger));
    var cancelled := Watch(Do(w.desk, cancel), Asking([1]));
    SecondIsCancelled(w.desk, service, t + service.confirmationTtl, cancelled.desk);
    ReachMore(service, beats, w, Other(cancel), cancelled);
    w := cancelled.(stage := Stopped);
    ReachMore(service, beats + [Other(cancel)], cancelled, AskOne(true), w);
    beats := beats + [Other(cancel)] + [AskOne(true)];
  }

  /** the first order's task is handled early and lost, and its reservation lapses with nobody left to release it. */
  lemma StrandedIsReached(service: NormalConfig) returns (beats: seq<Beat>, w: Watch)
    ensures Reached(service, beats, w) && Stranded(w, 0)
  {
    var t := if service.confirmationTtl % 1000 == 0 then 1 else 0;
    var expires := t + service.confirmationTtl;
    beats, w := StoppedWhileAsked(service, t);
    var handle := HandleTimeout(OwnTask(0, w.desk.db.orders[0], service), []);
    var lost := Watch(Do(w.desk, handle), Stopped);
    LostThenLapsed(w.desk, service, expires, lost.desk, Do(lost.desk, Outside(Tick(expires))));
    ReachMore(service, beats, w, Other(handle), lost);
    w := Watch(Do(lost.desk, Outside(Tick(expires))), Stopped);
    ReachMore(service, beats + [Other(handle)], lost, Other(Outside(Tick(expires))), w);
    beats := beats + [Other(handle)] + [Other(Outside(Tick(expires)))];
    ReachedIsTidy(service, beats, w);
  }

  lemma LostThenLapsed(s: Desk, service: NormalConfig, expires: Instant, lost: Desk, lapsed: Desk)
    requires FirstAsked(s, service, expires) && s.db.now == expires - 1 && expires % 1000 != 0
    requires lost == Do(s, HandleTimeout(OwnTask(0, s.db.orders[0], service), [])) && lapsed == Do(lost, Outside(Tick(expires)))
    ensures Expired(lapsed.db, 0) && Untimed(lapsed, 0)
  {
    LostOnce(s, service, expires);
  }

  /** Whatever the configuration, a run of the service as it is leaves a lapsed reservation that waits, through every
      further run, until its passenger or its driver acts. */
  lemma ReservationWaitsForGood(service: NormalConfig) returns (beats: seq<Beat>, w: Watch)
    ensures Reached(service, beats, w) && Expired(w.desk.db, 0)
    ensures forall more :: LeftAlone(more, 0) ==> Expired(TurnAll(w, more).desk.db, 0)
  {
    beats, w := StrandedIsReached(service);
    forall more | LeftAlone(more, 0)
      ensures Expired(TurnAll(w, more).desk.db, 0)
    {
      StrandedWaits(w, more, 0);
    }
  }
}
