/** Every service call is a run of table transactions; timers spare reservations that have not expired; no searching
    order is left without a task; one kind of timeout task is never removed. */
module DispatchProgress {
  import opened Prelude
  import opened Orders
  import opened Database
  import opened Edges
  import opened Reservations
  import opened OfferStore
  import opened Dispatch

  // ----- service calls as transactions -----

  /** A transaction that changes nothing. */
  function Idle(db: Db): Action {
    Tick(db.now)
  }

  /** Which transactions a service call may contain: an assignment only of the accepting driver, a confirmation only by
      its passenger, a release only of a lapsed reservation or on its passenger's word. */
  ghost predicate MayRun(s: Desk, step: Step, a: Action) {
    match a
    case Reserve(bid) => exists eligible :: step == AcceptOffer(bid.order, bid.driver, eligible) && AcceptBid(s, bid.order, bid.driver, eligible) == Some(bid)
    case Confirm(o, passenger) => step == ConfirmOrderPrice(o, passenger)
    case Free(o, d) =>
      && o in s.db.orders && s.db.orders[o].driver == Some(d)
      && (step == DeclineOrderPrice(o, s.db.orders[o].passenger) || Lapsed(s.db.orders[o], s.db.now))
    case BeginSearch(_) => step.Enqueue? || step.ProcessTask?
    case Fail(_) => step.ProcessTask? || step.HandleTimeout?
    case MarkBusy(d) => step.AcceptOffer? || step == Outside(a)
    case _ => a == Idle(s.db) || step == Outside(a)
  }

  lemma IdleIsNothing(db: Db)
    ensures Apply(db, Idle(db)) == db
  {
  }

  lemma SearchIsTransaction(s: Desk, task: Task, nearby: seq<Id>) returns (a: Action)
    requires task.order in s.db.orders
    ensures Search(s, task, nearby).db == Apply(s.db, a)
    ensures a == Fail(task.order) || a == Idle(s.db)
  {
    a := if Exhausted(s, task, nearby) then Fail(task.order) else Idle(s.db);
  }

  /** Searching started from a created order. */
  lemma StartedIsTransactions(s: Desk, task: Task, nearby: seq<Id>) returns (b: Action)
    requires CanStartSearch(s.db, task.order)
    ensures Search(s.(db := StartSearch(s.db, task.order)), task, nearby).db == Apply(Apply(s.db, BeginSearch(task.order)), b)
    ensures b.Fail? || b == Idle(s.db)
  {
    b := SearchIsTransaction(s.(db := StartSearch(s.db, task.order)), task, nearby);
  }

  lemma ProcessOneIsTransactions(s: Desk, task: Task, nearby: seq<Id>) returns (a: Action, b: Action)
    ensures ProcessOne(s, task, nearby).db == Apply(Apply(s.db, a), b)
    ensures (a.BeginSearch? || a == Idle(s.db)) && (b.Fail? || b == Idle(s.db))
  {
    a, b := Idle(s.db), Idle(s.db);
    IdleIsNothing(s.db);
    if task.order in s.db.orders && !Settled(s.db.orders[task.order].status) {
      if s.db.orders[task.order].status == Searching {
        b := SearchIsTransaction(s, task, nearby);
      } else if CanStartSearch(s.db, task.order) {
        a := BeginSearch(task.order);
        b := StartedIsTransactions(s, task, nearby);
      }
    }
  }

  lemma ProcessIsTransactions(s: Desk, nearby: seq<Id>) returns (a: Action, b: Action)
    ensures Process(s, nearby).db == Apply(Apply(s.db, a), b)
    ensures (a.BeginSearch? || a == Idle(s.db)) && (b.Fail? || b == Idle(s.db))
  {
    a, b := Idle(s.db), Idle(s.db);
    if s.queue != [] {
      a, b := ProcessOneIsTransactions(s.(queue := s.queue[1..]), s.queue[0], nearby);
    }
  }

  lemma TimeoutIsTransaction(s: Desk, task: Task, offered: seq<Id>) returns (a: Action)
    ensures Timeout(s, task, offered).db == Apply(s.db, a)
    ensures MayRun(s, HandleTimeout(task, offered), a)
  {
    var after := Timeout(s, task, offered).db;
    if after == s.db {
      a := Idle(s.db);
    } else if task.attempt == -1 {
      a := Free(task.order, s.db.orders[task.order].driver.value);
    } else {
      a := Fail(task.order);
    }
  }

  lemma TakenIsTransactions(s: Desk, bid: Bid)
    requires CanAssign(s.db, bid)
    ensures Taken(s, bid).db == Apply(Apply(s.db, Reserve(bid)), MarkBusy(bid.driver))
  {
  }

  lemma AcceptIsTransactions(s: Desk, o: Id, d: Id, eligible: bool) returns (a: Action, b: Action)
    ensures Accept(s, o, d, eligible).db == Apply(Apply(s.db, a), b)
    ensures MayRun(s, AcceptOffer(o, d, eligible), a) && (b.MarkBusy? || b == Idle(s.db))
  {
    var bid := AcceptBid(s, o, d, eligible);
    if bid.Some? && CanAssign(s.db, bid.value) {
      a, b := Reserve(bid.value), MarkBusy(d);
      TakenIsTransactions(s, bid.value);
    } else {
      a, b := Idle(s.db), Idle(s.db);
      IdleIsNothing(s.db);
    }
  }

  lemma ReleaseIsTransaction(s: Desk, o: Id, d: Id) returns (a: Action)
    requires o in s.db.orders && s.db.orders[o].driver == Some(d)
    ensures ReleasePrice(s, o, d).db == Apply(s.db, a) && (a == Free(o, d) || a == Idle(s.db))
  {
    a := if CanRelease(s.db, o, d) then Free(o, d) else Idle(s.db);
  }

  lemma DeclineIsTransaction(s: Desk, o: Id, passenger: Id) returns (a: Action)
    ensures Decline(s, o, passenger).db == Apply(s.db, a) && MayRun(s, DeclineOrderPrice(o, passenger), a)
  {
    a := Idle(s.db);
    if CanDecline(s, o, passenger) {
      a := ReleaseIsTransaction(s, o, s.db.orders[o].driver.value);
    }
  }

  lemma ExpireIsTransaction(s: Desk, o: Id) returns (a: Action)
    ensures ExpirePrice(s, o).db == Apply(s.db, a) && MayRun(s, ExpireOrderPrice(o), a)
  {
    a := Idle(s.db);
    if o in s.db.orders && Lapsed(s.db.orders[o], s.db.now) {
      a := ReleaseIsTransaction(s, o, s.db.orders[o].driver.value);
    }
  }

  /** The calls that run one transaction, or none. */
  lemma SingleTransaction(s: Desk, step: Step) returns (a: Action)
    requires !step.ProcessTask? && !step.AcceptOffer?
    ensures Do(s, step).db == Apply(s.db, a) && MayRun(s, step, a)
  {
    a := Idle(s.db);
    match step {
      case Enqueue(o, config) => a := BeginSearch(o);
      case HandleTimeout(task, offered) => a := TimeoutIsTransaction(s, task, offered);
      case ConfirmOrderPrice(o, passenger) => a := Confirm(o, passenger);
      case DeclineOrderPrice(o, passenger) => a := DeclineIsTransaction(s, o, passenger);
      case ExpireOrderPrice(o) => a := ExpireIsTransaction(s, o);
      case Outside(action) =>
        if Foreign(action) {
          a := action;
        }
      case _ =>
    }
  }

  lemma NoTransactionMovesClockBack(db: Db, a: Action)
    requires !a.Tick?
    ensures Apply(db, a).now == db.now
  {
  }

  /** Every call acts on the tables through at most two of their transactions, and only through those it may run. */
  lemma StepIsTransactions(s: Desk, step: Step) returns (a: Action, b: Action)
    ensures Do(s, step).db == Apply(Apply(s.db, a), b)
    ensures MayRun(s, step, a) && MayRun(s, step, b)
    ensures !step.ProcessTask? && !step.AcceptOffer? ==> b == Idle(s.db)
  {
    if step.ProcessTask? {
      a, b := ProcessIsTransactions(s, step.nearby);
    } else if step.AcceptOffer? {
      a, b := AcceptIsTransactions(s, step.order, step.driver, step.eligible);
    } else {
      b := Idle(s.db);
      a := SingleTransaction(s, step);
      if a.Tick? {
        TickThenIdle(s.db, a.later);
      } else {
        NoTransactionMovesClockBack(s.db, a);
        IdleIsNothing(Apply(s.db, a));
      }
    }
  }

  lemma TickThenIdle(db: Db, later: Instant)
    ensures Apply(Apply(db, Tick(later)), Idle(db)) == Apply(db, Tick(later))
  {
  }

  // ----- timers -----

  /** The passenger's own answer to a price, or a cancellation by passenger or driver. */
  predicate Answers(step: Step, o: Id) {
    || (step.ConfirmOrderPrice? && step.order == o)
    || (step.DeclineOrderPrice? && step.order == o)
    || (step.Outside? && step.action.PassengerCancel? && step.action.o == o)
    || (step.Outside? && step.action.Drive? && step.action.o == o && step.action.to == Cancelled)
  }

  predicate AwaitsAnswer(row: Order, now: Instant) {
    row.status == DriverAssigned && row.confirmation == Some(Pending) && row.expires.Some? && now < row.expires.value
  }

  /** The transaction is neither an answer to the order's price nor its release or cancellation. */
  predicate Spares(a: Action, o: Id) {
    (a.Free? || a.Confirm? || a.PassengerCancel? ==> a.o != o) && (a.Drive? && a.o == o ==> a.to != Cancelled)
  }

  lemma EdgeSparesPending(before: Order, after: Order, a: Action, o: Id, now: Instant)
    requires Edge(before, after, a, o, now) && AwaitsPassenger(before) && Spares(a, o)
    ensures after == before
  {
  }

  lemma ActionSparesPending(db: Db, a: Action, o: Id)
    requires o in db.orders && AwaitsAnswer(db.orders[o], db.now) && Spares(a, o)
    ensures o in Apply(db, a).orders && Apply(db, a).orders[o] == db.orders[o] && Apply(db, a).now >= db.now
  {
    ActionEdge(db, a, o);
    EdgeSparesPending(db.orders[o], Apply(db, a).orders[o], a, o, db.now);
    Edges.ClockAdvances(db, a);
  }

  lemma UnansweredSpares(s: Desk, step: Step, a: Action, o: Id)
    requires o in s.db.orders && AwaitsAnswer(s.db.orders[o], s.db.now) && !Answers(step, o) && MayRun(s, step, a)
    ensures Spares(a, o)
  {
  }

  lemma PairSparesPending(db: Db, a: Action, b: Action, o: Id)
    requires o in db.orders && AwaitsAnswer(db.orders[o], db.now) && Spares(a, o) && Spares(b, o)
    requires a.Tick? ==> a == Idle(db) || b == Idle(db)
    ensures var after := Apply(Apply(db, a), b);
            o in after.orders && after.orders[o] == db.orders[o] && after.now >= db.now
  {
    ActionSparesPending(db, a, o);
    if !a.Tick? || a == Idle(db) {
      ActionSparesPending(Apply(db, a), b, o);
    }
  }

  lemma StepSparesPending(s: Desk, step: Step, o: Id)
    requires o in s.db.orders && AwaitsAnswer(s.db.orders[o], s.db.now) && !Answers(step, o)
    ensures var after := Do(s, step).db;
            o in after.orders && after.orders[o] == s.db.orders[o] && after.now >= s.db.now
  {
    var a, b := StepIsTransactions(s, step);
    UnansweredSpares(s, step, a, o);
    UnansweredSpares(s, step, b, o);
    PairSparesPending(s.db, a, b, o);
  }

  /** A reservation waiting for its passenger survives every timer, worker and other call, whatever confirmation tasks
      earlier reservations left behind, until its own expiry. */
  lemma {:induction false} PendingSurvivesTimers(s: Desk, steps: seq<Step>, o: Id)
    requires o in s.db.orders && AwaitsAnswer(s.db.orders[o], s.db.now)
    requires forall i :: 0 <= i < |steps| ==> !Answers(steps[i], o)
    ensures var after := DoAll(s, steps).db;
            after.now < s.db.orders[o].expires.value ==> o in after.orders && after.orders[o] == s.db.orders[o]
    decreases |steps|
  {
    if steps != [] {
      var next := Do(s, steps[0]);
      StepSparesPending(s, steps[0], o);
      if next.db.now < s.db.orders[o].expires.value {
        PendingSurvivesTimers(next, steps[1..], o);
      } else {
        RunAdvances(next, steps[1..]);
      }
    }
  }

  lemma StepAdvances(s: Desk, step: Step)
    ensures Do(s, step).db.now >= s.db.now
  {
    var a, b := StepIsTransactions(s, step);
    Edges.ClockAdvances(s.db, a);
    Edges.ClockAdvances(Apply(s.db, a), b);
  }

  lemma {:induction false} RunAdvances(s: Desk, steps: seq<Step>)
    ensures DoAll(s, steps).db.now >= s.db.now
    decreases |steps|
  {
    if steps != [] {
      StepAdvances(s, steps[0]);
      RunAdvances(Do(s, steps[0]), steps[1..]);
    }
  }

  // ----- no searching order is forgotten -----

  predicate Queued(queue: seq<Task>, o: Id) {
    exists i :: 0 <= i < |queue| && queue[i].order == o
  }

  predicate Timed(timeouts: map<Task, Score>, o: Id) {
    exists t :: t in timeouts && t.order == o && t.attempt != -1
  }

  /** A task of the order waits in the queue, or an offer timeout of it waits for its time. */
  predicate HasTask(s: Desk, o: Id) {
    Queued(s.queue, o) || Timed(s.timeouts, o)
  }

  predicate Remembered(s: Desk, o: Id) {
    o in s.db.orders && s.db.orders[o].status == Searching ==> HasTask(s, o)
  }

  predicate AllRemembered(s: Desk) {
    forall o :: o in s.db.orders ==> Remembered(s, o)
  }

  lemma PublishRemembers(s: Desk, task: Task, o: Id)
    ensures HasTask(Publish(s, task), o) <==> HasTask(s, o) || o == task.order
  {
    var queue := s.queue + [task];
    assert queue[|s.queue|] == task;
    if Queued(s.queue, o) {
      var i :| 0 <= i < |s.queue| && s.queue[i].order == o;
      assert queue[i] == s.queue[i];
    }
  }

  lemma ScheduleRemembers(s: Desk, task: Task, after: nat, o: Id)
    ensures HasTask(Schedule(s, task, after), o) <==> HasTask(s, o) || (o == task.order && task.attempt != -1)
  {
    var timeouts := s.timeouts[task := Milli(s.db.now + after)];
    assert task in timeouts;
    if Timed(s.timeouts, o) {
      var t :| t in s.timeouts && t.order == o && t.attempt != -1;
      assert t in timeouts;
    }
  }

  lemma ConsumingForgetsOne(s: Desk, o: Id)
    requires s.queue != []
    ensures HasTask(s, o) ==> HasTask(s.(queue := s.queue[1..]), o) || o == s.queue[0].order
  {
    if Queued(s.queue, o) {
      var i :| 0 <= i < |s.queue| && s.queue[i].order == o;
      assert i > 0 ==> s.queue[1..][i - 1] == s.queue[i];
    }
  }

  lemma DroppingForgetsOne(s: Desk, task: Task, o: Id)
    ensures HasTask(s, o) ==> HasTask(s.(timeouts := s.timeouts - {task}), o) || (o == task.order && task.attempt != -1)
  {
    if Timed(s.timeouts, o) {
      var t :| t in s.timeouts && t.order == o && t.attempt != -1;
      assert t != task ==> t in s.timeouts - {task};
    }
  }

  /** Searching either schedules the task again or ends the search. */
  lemma SearchRemembers(s: Desk, task: Task, nearby: seq<Id>, o: Id)
    requires task.order in s.db.orders && s.db.orders[task.order].status == Searching && s.db.orders[task.order].driver.None?
    requires o == task.order || Remembered(s, o)
    ensures Remembered(Search(s, task, nearby), o)
  {
    var after := Search(s, task, nearby);
    var row, c := s.db.orders[task.order], ConfigFor(s.config, task);
    var listed := task.(exclude := Deduplicated(task.exclude + row.declined));
    if after.db == s.db {
      ScheduleRemembers(s, listed, c.offerTtl, o);
      assert after.timeouts == Schedule(s, listed, c.offerTtl).timeouts && after.queue == s.queue;
    } else {
      assert after == s.(db := GiveUp(s.db, task.order));
    }
  }

  lemma ProcessRemembers(s: Desk, nearby: seq<Id>, o: Id)
    requires Consistent(s.db) && Remembered(s, o)
    ensures Remembered(Process(s, nearby), o)
  {
    if s.queue != [] && s.queue[0].order in s.db.orders {
      var task, rest := s.queue[0], s.(queue := s.queue[1..]);
      ConsumingForgetsOne(s, o);
      assert RowOk(s.db.orders[task.order]);
      if s.db.orders[task.order].status == Searching {
        SearchRemembers(rest, task, nearby, o);
      } else if CanStartSearch(s.db, task.order) {
        SearchRemembers(rest.(db := StartSearch(s.db, task.order)), task, nearby, o);
      }
    } else if s.queue != [] {
      ConsumingForgetsOne(s, o);
    }
  }

  lemma RetryRemembers(s: Desk, task: Task, offered: seq<Id>, o: Id)
    requires task.order in s.db.orders && s.db.orders[task.order].status == Searching && s.db.orders[task.order].driver.None?
    requires o == task.order || Remembered(s, o)
    ensures Remembered(Retry(s, task, offered), o)
  {
    var next := Task(task.order, task.attempt + 1, s.db.now, Deduplicated(task.exclude + offered), task.config);
    PublishRemembers(s, next, o);
  }

  lemma ReleaseRemembers(s: Desk, o: Id, d: Id, p: Id)
    requires Remembered(s, p)
    ensures Remembered(ReleasePrice(s, o, d), p)
  {
    if CanRelease(s.db, o, d) {
      PublishRemembers(s, Task(o, 0, s.db.now, [d], None), p);
    }
  }

  lemma TimeoutRemembers(s: Desk, task: Task, offered: seq<Id>, o: Id)
    requires Consistent(s.db) && Remembered(s, o)
    ensures Remembered(Timeout(s, task, offered), o)
  {
    DroppingForgetsOne(s, task, o);
    if task.order in s.db.orders {
      if task.attempt == -1 {
        if Lapsed(s.db.orders[task.order], s.db.now) {
          ReleaseRemembers(s, task.order, s.db.orders[task.order].driver.value, o);
        }
        DroppingForgetsOne(ExpirePrice(s, task.order), task, o);
      } else if s.db.orders[task.order].status == Searching {
        assert RowOk(s.db.orders[task.order]);
        RetryRemembers(s.(keys := Clear(s.keys, s.db.now, task.order), timeouts := s.timeouts - {task}), task, offered, o);
      }
    }
  }

  lemma TakenTables(s: Desk, bid: Bid)
    requires CanAssign(s.db, bid)
    ensures var after := Taken(s, bid);
            && after.db.orders == s.db.orders[bid.order := AssignedRow(s.db, bid)] && after.config == s.config && after.queue == s.queue
            && after.timeouts == if bid.needsConfirmation
                                 then s.timeouts[Task(bid.order, -1, s.db.now, [bid.driver], None) := Milli(s.db.now + s.config.confirmationTtl)]
                                 else s.timeouts
  {
  }

  lemma TakenRemembers(s: Desk, bid: Bid, after: Desk, p: Id)
    requires Remembered(s, p) && CanAssign(s.db, bid) && after == Taken(s, bid)
    ensures Remembered(after, p)
  {
    TakenTables(s, bid);
    var task := Task(bid.order, -1, s.db.now, [bid.driver], None);
    ScheduleRemembers(s, task, s.config.confirmationTtl, p);
    assert HasTask(after, p) <==> HasTask(s, p);
  }

  lemma AcceptRemembers(s: Desk, o: Id, d: Id, eligible: bool, p: Id)
    requires Remembered(s, p)
    ensures Remembered(Accept(s, o, d, eligible), p)
  {
    var bid := AcceptBid(s, o, d, eligible);
    if bid.Some? && CanAssign(s.db, bid.value) {
      TakenRemembers(s, bid.value, Taken(s, bid.value), p);
    }
  }

  /** Only the service itself starts a search. */
  lemma EdgeStartsNoSearch(before: Order, after: Order, a: Action, o: Id, now: Instant)
    requires Edge(before, after, a, o, now) && RowOk(before) && !a.BeginSearch? && !a.Free?
    ensures after.status == Searching ==> before.status == Searching
  {
  }

  lemma QuietActionStartsNoSearch(db: Db, a: Action, o: Id)
    requires Consistent(db) && !a.BeginSearch? && !a.Free? && o in Apply(db, a).orders
    ensures Apply(db, a).orders[o].status == Searching ==> o in db.orders && db.orders[o].status == Searching
  {
    if o in db.orders {
      ActionEdge(db, a, o);
      assert RowOk(db.orders[o]);
      EdgeStartsNoSearch(db.orders[o], Apply(db, a).orders[o], a, o, db.now);
    } else {
      ActionAdds(db, a, o);
    }
  }

  lemma RefusalRemembers(s: Desk, p: Id, passenger: Id, o: Id)
    requires Remembered(s, o)
    ensures Remembered(Decline(s, p, passenger), o) && Remembered(ExpirePrice(s, p), o)
  {
    if p in s.db.orders && s.db.orders[p].driver.Some? {
      ReleaseRemembers(s, p, s.db.orders[p].driver.value, o);
    }
  }

  lemma EnqueueRemembers(s: Desk, p: Id, config: Option<Config>, o: Id)
    requires Remembered(s, o)
    ensures Remembered(Do(s, Enqueue(p, config)), o)
  {
    PublishRemembers(s, Task(p, 0, s.db.now, [], config), o);
  }

  lemma OutsideRemembers(s: Desk, a: Action, o: Id)
    requires Consistent(s.db) && Remembered(s, o) && Foreign(a)
    ensures Remembered(s.(db := Apply(s.db, a)), o)
  {
    if o in Apply(s.db, a).orders {
      QuietActionStartsNoSearch(s.db, a, o);
    }
  }

  lemma AnswersRemember(s: Desk, step: Step, o: Id)
    requires Remembered(s, o)
    requires step.RejectOffer? || step.ConfirmOrderPrice? || step.DeclineOrderPrice? || step.ExpireOrderPrice? || step.StopDispatch?
    ensures Remembered(Do(s, step), o)
  {
    match step {
      case DeclineOrderPrice(p, passenger) => RefusalRemembers(s, p, passenger, o);
      case ExpireOrderPrice(p) => RefusalRemembers(s, p, 0, o);
      case _ =>
    }
  }

  lemma StepRemembers(s: Desk, step: Step, o: Id)
    requires Consistent(s.db) && Remembered(s, o)
    ensures Remembered(Do(s, step), o)
  {
    match step {
      case Enqueue(p, config) => EnqueueRemembers(s, p, config, o);
      case ProcessTask(nearby) => ProcessRemembers(s, nearby, o);
      case HandleTimeout(task, offered) => TimeoutRemembers(s, task, offered, o);
      case AcceptOffer(p, d, eligible) => AcceptRemembers(s, p, d, eligible, o);
      case Outside(a) =>
        if Foreign(a) {
          OutsideRemembers(s, a, o);
        }
      case _ => AnswersRemember(s, step, o);
    }
  }

  lemma {:induction false} RunRemembers(s: Desk, steps: seq<Step>)
    requires Consistent(s.db) && AllRemembered(s)
    ensures Consistent(DoAll(s, steps).db) && AllRemembered(DoAll(s, steps))
    decreases |steps|
  {
    if steps != [] {
      var next := Do(s, steps[0]);
      var a, b := StepIsTransactions(s, steps[0]);
      ApplyKeeps(s.db, a);
      ApplyKeeps(Apply(s.db, a), b);
      forall o | o in next.db.orders
        ensures Remembered(next, o)
      {
        assert Remembered(s, o);
        StepRemembers(s, steps[0], o);
      }
      RunRemembers(next, steps[1..]);
    }
  }

  /** Once the queue and the timeout set are empty, no order is searching: each has a driver, has failed, or is over. */
  lemma DrainedMeansNobodySearches(config: NormalConfig, steps: seq<Step>, o: Id)
    requires var s := DoAll(Desk(EMPTY, NO_KEYS, [], map[], config), steps);
             s.queue == [] && s.timeouts == map[] && o in s.db.orders
    ensures DoAll(Desk(EMPTY, NO_KEYS, [], map[], config), steps).db.orders[o].status != Searching
  {
    RunRemembers(Desk(EMPTY, NO_KEYS, [], map[], config), steps);
    assert Remembered(DoAll(Desk(EMPTY, NO_KEYS, [], map[], config), steps), o);
  }

  // ----- a timeout task that is never removed -----

  /** A confirmation task of an order that left its reservation with the lapsed confirmation still pending. */
  predicate LeftPending(s: Desk, task: Task)
    requires task.order in s.db.orders
  {
    task.attempt == -1 && Lapsed(s.db.orders[task.order], s.db.now) && s.db.orders[task.order].status != DriverAssigned
  }

  /** Handling a due task leaves everything as it was, the task included, exactly then, or when its order is unknown. */
  lemma DueTaskIsStuckIff(s: Desk, task: Task, offered: seq<Id>)
    requires IsDue(s, task) && ListsAll(offered, Members(s.keys.byOrder, s.db.now, task.order))
    ensures Timeout(s, task, offered) == s <==> task.order !in s.db.orders || LeftPending(s, task)
  {
    assert task !in s.timeouts - {task};
    assert s.timeouts - {task} != s.timeouts;
  }

  lemma EdgeKeepsTerminal(before: Order, after: Order, a: Action, o: Id, now: Instant)
    requires Edge(before, after, a, o, now) && Terminal(before.status)
    ensures Terminal(after.status) && after.driver == before.driver && after.confirmation == before.confirmation
            && after.expires == before.expires
  {
  }

  lemma TerminalRowKeepsPending(db: Db, a: Action, o: Id)
    requires o in db.orders && Terminal(db.orders[o].status) && Lapsed(db.orders[o], db.now)
    ensures var after := Apply(db, a);
            o in after.orders && Terminal(after.orders[o].status) && Lapsed(after.orders[o], after.now)
  {
    ActionEdge(db, a, o);
    EdgeKeepsTerminal(db.orders[o], Apply(db, a).orders[o], a, o, db.now);
    Edges.ClockAdvances(db, a);
  }

  predicate Stuck(s: Desk, task: Task) {
    && task in s.timeouts && task.attempt == -1 && task.order in s.db.orders
    && Terminal(s.db.orders[task.order].status) && Lapsed(s.db.orders[task.order], s.db.now)
  }

  lemma StuckSurvivesTimeout(s: Desk, other: Task, offered: seq<Id>, task: Task)
    requires Stuck(s, task)
    ensures task in Timeout(s, other, offered).timeouts
  {
  }

  lemma StuckSurvivesProcess(s: Desk, nearby: seq<Id>, task: Task)
    requires Stuck(s, task)
    ensures task in Process(s, nearby).timeouts
  {
  }

  lemma StuckStays(s: Desk, step: Step, task: Task)
    requires Stuck(s, task)
    ensures task in Do(s, step).timeouts
  {
    match step {
      case ProcessTask(nearby) => StuckSurvivesProcess(s, nearby, task);
      case HandleTimeout(other, offered) => StuckSurvivesTimeout(s, other, offered, task);
      case _ =>
    }
  }

  lemma StepKeepsStuck(s: Desk, step: Step, task: Task)
    requires Stuck(s, task)
    ensures Stuck(Do(s, step), task)
  {
    var a, b := StepIsTransactions(s, step);
    TerminalRowKeepsPending(s.db, a, task.order);
    TerminalRowKeepsPending(Apply(s.db, a), b, task.order);
    StuckStays(s, step, task);
  }

  /** The confirmation task of an order cancelled while its price was pending stays in the timeout set for good: every
      attempt to handle it fails before it is removed. */
  lemma {:induction false} CancelledConfirmationNeverLeaves(s: Desk, steps: seq<Step>, task: Task)
    requires Stuck(s, task)
    ensures Stuck(DoAll(s, steps), task)
    decreases |steps|
  {
    if steps != [] {
      StepKeepsStuck(s, steps[0], task);
      CancelledConfirmationNeverLeaves(Do(s, steps[0]), steps[1..], task);
    }
  }

  /** Such an order arises whenever a passenger cancels instead of answering, and then the expiry passes. */
  lemma CancellationLeavesItPending(s: Desk, o: Id)
    requires o in s.db.orders && AwaitsAnswer(s.db.orders[o], s.db.now) && s.db.orders[o].driver.Some?
    ensures var row := s.db.orders[o];
            var later := DoAll(s, [Outside(PassengerCancel(o, row.passenger)), Outside(Tick(row.expires.value))]);
            && o in later.db.orders && later.timeouts == s.timeouts
            && Terminal(later.db.orders[o].status) && Lapsed(later.db.orders[o], later.db.now)
  {
    var row := s.db.orders[o];
    var cancel, wait := Outside(PassengerCancel(o, row.passenger)), Outside(Tick(row.expires.value));
    assert [cancel, wait][1..] == [wait] && [wait][1..] == [];
    var cancelled := Do(s, cancel);
    assert DoAll(s, [cancel, wait]) == DoAll(cancelled, [wait]) == DoAll(Do(cancelled, wait), []);
  }

  // ----- the confirmation task of a reservation -----

  /** The confirmation task that the acceptance of this reservation scheduled. */
  function OwnTask(o: Id, row: Order, service: NormalConfig): Task
    requires row.driver.Some? && row.expires.Some?
  {
    var expires := row.expires.value;
    Task(o, -1, if expires >= service.confirmationTtl then expires - service.confirmationTtl else 0, [row.driver.value], None)
  }

  /** A confirmation task of the order, of this reservation or an earlier one. */
  predicate IsConfirmation(task: Task, o: Id) {
    task.order == o && task.attempt == -1
  }

  /** Its task is in the timeout set, at the millisecond in which the reservation expires. */
  predicate HasTimer(o: Id, row: Order, service: NormalConfig, timeouts: map<Task, Score>) {
    && row.driver.Some? && row.expires.Some?
    && var task := OwnTask(o, row, service);
       task in timeouts && timeouts[task] == Milli(row.expires.value)
  }

  predicate PendingTimed(s: Desk, o: Id) {
    o in s.db.orders && AwaitsPassenger(s.db.orders[o]) ==> HasTimer(o, s.db.orders[o], s.config, s.timeouts)
  }

  predicate AllPendingTimed(s: Desk) {
    forall o :: o in s.db.orders ==> PendingTimed(s, o)
  }

  /** The timeout worker handles the task of a pending reservation that has not expired yet. */
  predicate HandlesEarly(s: Desk, step: Step, o: Id) {
    && o in s.db.orders && AwaitsPassenger(s.db.orders[o])
    && s.db.orders[o].driver.Some? && s.db.orders[o].expires.Some? && s.db.now < s.db.orders[o].expires.value
    && step.HandleTimeout? && step.task == OwnTask(o, s.db.orders[o], s.config)
    && IsDue(s, step.task) && ListsAll(step.offered, Members(s.keys.byOrder, s.db.now, o))
  }

  /** That can only happen in the very millisecond of the expiry. */
  lemma EarlyIsTheSameMillisecond(s: Desk, step: Step, o: Id)
    requires PendingTimed(s, o) && HandlesEarly(s, step, o)
    ensures Milli(s.db.now) == Milli(s.db.orders[o].expires.value) && s.db.orders[o].expires.value % 1000 != 0
  {
  }

  /** The pending reservation of `after` is the one of `before`. */
  predicate SamePending(before: map<Id, Order>, after: map<Id, Order>, o: Id) {
    o in after && AwaitsPassenger(after[o]) ==>
      && o in before && AwaitsPassenger(before[o])
      && before[o].expires == after[o].expires && before[o].driver == after[o].driver
  }

  /** No change but a reservation leaves a row pending. */
  lemma ChangeStartsNoPending(before: Order, after: Order, e: Event)
    requires Changes(before, after, e) && !e.Reserved? && RowOk(before)
    ensures !AwaitsPassenger(after)
  {
  }

  /** So a row that is pending afterwards was so before, unchanged. */
  lemma EdgeStartsNoPending(before: Order, after: Order, a: Action, o: Id, now: Instant)
    requires Edge(before, after, a, o, now) && RowOk(before) && !a.Reserve? && AwaitsPassenger(after)
    ensures after == before
  {
    if after != before {
      var e :| after.history == before.history + [e] && Leaves(a, o, e, now) && Changes(before, after, e);
      ChangeStartsNoPending(before, after, e);
    }
  }

  /** Only an acceptance makes a reservation pending. */
  lemma ActionStartsNoPending(db: Db, a: Action, o: Id)
    requires Consistent(db) && !a.Reserve?
    ensures SamePending(db.orders, Apply(db, a).orders, o)
  {
    if o in db.orders {
      ActionEdge(db, a, o);
      assert RowOk(db.orders[o]);
      if AwaitsPassenger(Apply(db, a).orders[o]) {
        EdgeStartsNoPending(db.orders[o], Apply(db, a).orders[o], a, o, db.now);
      }
    } else if o in Apply(db, a).orders {
      ActionAdds(db, a, o);
    }
  }

  lemma PairStartsNoPending(db: Db, a: Action, b: Action, o: Id)
    requires Consistent(db) && !a.Reserve? && !b.Reserve?
    ensures SamePending(db.orders, Apply(Apply(db, a), b).orders, o)
  {
    ApplyKeeps(db, a);
    ActionStartsNoPending(db, a, o);
    ActionStartsNoPending(Apply(db, a), b, o);
  }

  /** With the same pending reservation it is enough that its timer is kept. */
  lemma SamePendingKeepsTimed(s: Desk, after: Desk, o: Id)
    requires PendingTimed(s, o) && SamePending(s.db.orders, after.db.orders, o) && after.config == s.config
    requires forall t :: t in s.timeouts && t.order == o && t.attempt == -1 ==> t in after.timeouts && after.timeouts[t] == s.timeouts[t]
    ensures PendingTimed(after, o)
  {
  }

  /** The timeout set after a search: as it was, or with the task scheduled again. */
  lemma SearchTimeouts(s: Desk, task: Task, nearby: seq<Id>)
    requires task.order in s.db.orders
    ensures var after := Search(s, task, nearby).timeouts;
            after == s.timeouts
            || (task.attempt != -1
                && after == s.timeouts[Listed(s, task) := Milli(s.db.now + ConfigFor(s.config, task).offerTtl)])
  {
  }

  /** Searching never touches a confirmation task. */
  lemma ProcessKeepsTimers(s: Desk, nearby: seq<Id>, t: Task)
    requires t in s.timeouts && t.attempt == -1
    ensures t in Process(s, nearby).timeouts && Process(s, nearby).timeouts[t] == s.timeouts[t]
  {
    if s.queue != [] && s.queue[0].order in s.db.orders {
      var first, rest := s.queue[0], s.(queue := s.queue[1..]);
      if s.db.orders[first.order].status == Searching {
        SearchTimeouts(rest, first, nearby);
      } else if CanStartSearch(s.db, first.order) {
        SearchTimeouts(rest.(db := StartSearch(s.db, first.order)), first, nearby);
      }
    }
  }

  lemma ProcessKeepsTimed(s: Desk, nearby: seq<Id>, o: Id)
    requires Consistent(s.db) && PendingTimed(s, o)
    ensures PendingTimed(Process(s, nearby), o)
  {
    var a, b := ProcessIsTransactions(s, nearby);
    PairStartsNoPending(s.db, a, b, o);
    forall t | t in s.timeouts && t.order == o && t.attempt == -1
      ensures t in Process(s, nearby).timeouts && Process(s, nearby).timeouts[t] == s.timeouts[t]
    {
      ProcessKeepsTimers(s, nearby, t);
    }
    SamePendingKeepsTimed(s, Process(s, nearby), o);
  }

  /** Which timers the handling of a task takes away. */
  lemma TimeoutTimers(s: Desk, task: Task, offered: seq<Id>)
    ensures var after := Timeout(s, task, offered);
            (after.timeouts == s.timeouts || after.timeouts == s.timeouts - {task}) && after.config == s.config
  {
  }

  /** Its own task, handled at the right time, resolves the reservation; a failing one changes nothing. */
  lemma OwnTaskResolves(s: Desk, task: Task, offered: seq<Id>, o: Id)
    requires o in s.db.orders && AwaitsPassenger(s.db.orders[o]) && HasTimer(o, s.db.orders[o], s.config, s.timeouts)
    requires task == OwnTask(o, s.db.orders[o], s.config) && !HandlesEarly(s, HandleTimeout(task, offered), o)
    ensures var after := Timeout(s, task, offered);
            after == s || (o in after.db.orders && !AwaitsPassenger(after.db.orders[o]))
  {
  }

  lemma OtherTaskSpares(s: Desk, task: Task, after: Desk, o: Id)
    requires PendingTimed(s, o) && SamePending(s.db.orders, after.db.orders, o) && after.config == s.config
    requires after.timeouts == s.timeouts || after.timeouts == s.timeouts - {task}
    requires o in s.db.orders && AwaitsPassenger(s.db.orders[o]) ==> task != OwnTask(o, s.db.orders[o], s.config)
    ensures PendingTimed(after, o)
  {
  }

  lemma TimeoutKeepsTimedUnlessEarly(s: Desk, task: Task, offered: seq<Id>, o: Id)
    requires Consistent(s.db) && PendingTimed(s, o) && !HandlesEarly(s, HandleTimeout(task, offered), o)
    ensures PendingTimed(Timeout(s, task, offered), o)
  {
    if o in s.db.orders && AwaitsPassenger(s.db.orders[o]) && task == OwnTask(o, s.db.orders[o], s.config) {
      OwnTaskResolves(s, task, offered, o);
    } else {
      var a := TimeoutIsTransaction(s, task, offered);
      ActionStartsNoPending(s.db, a, o);
      TimeoutTimers(s, task, offered);
      OtherTaskSpares(s, task, Timeout(s, task, offered), o);
    }
  }

  lemma EarlyHandlingDrops(s: Desk, step: Step, o: Id)
    requires HandlesEarly(s, step, o)
    ensures Do(s, step) == s.(timeouts := s.timeouts - {step.task})
  {
  }

  lemma TakenIsTimed(s: Desk, bid: Bid, after: Desk)
    requires CanAssign(s.db, bid) && bid.expires == s.db.now + s.config.confirmationTtl && after == Taken(s, bid)
    ensures PendingTimed(after, bid.order)
  {
    TakenTables(s, bid);
    BidIsTimed(after, bid, AssignedRow(s.db, bid), s.db.now);
  }

  lemma BidIsTimed(after: Desk, bid: Bid, row: Order, now: Instant)
    requires bid.order in after.db.orders && after.db.orders[bid.order] == row
    requires row.driver == Some(bid.driver) && bid.expires == now + after.config.confirmationTtl
    requires AwaitsPassenger(row) ==>
               && row.expires == Some(bid.expires)
               && var task := Task(bid.order, -1, now, [bid.driver], None);
                  task in after.timeouts && after.timeouts[task] == Milli(bid.expires)
    ensures PendingTimed(after, bid.order)
  {
  }

  lemma TakenKeepsTimed(s: Desk, bid: Bid, o: Id)
    requires PendingTimed(s, o) && (bid.order in s.db.orders ==> bid.expires == s.db.now + s.config.confirmationTtl)
    ensures PendingTimed(Taken(s, bid), o)
  {
    if CanAssign(s.db, bid) {
      if o == bid.order {
        TakenIsTimed(s, bid, Taken(s, bid));
      } else {
        TakenTables(s, bid);
        SamePendingKeepsTimed(s, Taken(s, bid), o);
      }
    }
  }

  lemma AcceptKeepsTimed(s: Desk, p: Id, d: Id, eligible: bool, o: Id)
    requires PendingTimed(s, o)
    ensures PendingTimed(Accept(s, p, d, eligible), o)
  {
    var bid := AcceptBid(s, p, d, eligible);
    if bid.Some? {
      TakenKeepsTimed(s, bid.value, o);
    }
  }

  lemma OtherStepsKeepTimers(s: Desk, step: Step)
    requires !step.ProcessTask? && !step.HandleTimeout? && !step.AcceptOffer?
    ensures Do(s, step).timeouts == s.timeouts && Do(s, step).config == s.config
  {
  }

  lemma OtherStepsKeepTimed(s: Desk, step: Step, o: Id)
    requires Consistent(s.db) && PendingTimed(s, o)
    requires !step.ProcessTask? && !step.HandleTimeout? && !step.AcceptOffer?
    ensures PendingTimed(Do(s, step), o)
  {
    var a, b := StepIsTransactions(s, step);
    PairStartsNoPending(s.db, a, b, o);
    OtherStepsKeepTimers(s, step);
    SamePendingKeepsTimed(s, Do(s, step), o);
  }

  /** Exactly when a pending reservation loses its task: when that task is handled before the expiry, which the cut of
      its time to whole milliseconds makes possible. */
  lemma TimerLostIff(s: Desk, step: Step, o: Id)
    requires Consistent(s.db) && PendingTimed(s, o)
    ensures PendingTimed(Do(s, step), o) <==> !HandlesEarly(s, step, o)
  {
    if HandlesEarly(s, step, o) {
      EarlyHandlingDrops(s, step, o);
    } else {
      match step {
        case ProcessTask(nearby) => ProcessKeepsTimed(s, nearby, o);
        case HandleTimeout(task, offered) => TimeoutKeepsTimedUnlessEarly(s, task, offered, o);
        case AcceptOffer(p, d, eligible) => AcceptKeepsTimed(s, p, d, eligible, o);
        case _ => OtherStepsKeepTimed(s, step, o);
      }
    }
  }

  ghost predicate NeverEarly(s: Desk, steps: seq<Step>)
    decreases |steps|
  {
    steps == [] || ((forall o :: o in s.db.orders ==> !HandlesEarly(s, steps[0], o)) && NeverEarly(Do(s, steps[0]), steps[1..]))
  }

  lemma StepKeepsTables(s: Desk, step: Step)
    requires Consistent(s.db)
    ensures Consistent(Do(s, step).db)
  {
    var a, b := StepIsTransactions(s, step);
    ApplyKeeps(s.db, a);
    ApplyKeeps(Apply(s.db, a), b);
  }

  ghost predicate TimedThroughout(s: Desk, steps: seq<Step>)
    decreases |steps|
  {
    AllPendingTimed(s) && (steps == [] || TimedThroughout(Do(s, steps[0]), steps[1..]))
  }

  lemma StepKeepsTimedIff(s: Desk, step: Step, next: Desk)
    requires Consistent(s.db) && AllPendingTimed(s) && next == Do(s, step)
    ensures AllPendingTimed(next) <==> forall o :: o in s.db.orders ==> !HandlesEarly(s, step, o)
  {
    forall o
      ensures PendingTimed(next, o) <==> !HandlesEarly(s, step, o)
    {
      assert PendingTimed(s, o);
      TimerLostIff(s, step, o);
    }
  }

  /** In every state of a run each pending reservation has its own confirmation task in the timeout set, at the
      millisecond of its expiry, exactly when the run handles none of these tasks early. */
  lemma {:induction false} EveryPendingReservationIsTimed(s: Desk, steps: seq<Step>)
    requires Consistent(s.db) && AllPendingTimed(s)
    ensures TimedThroughout(s, steps) <==> NeverEarly(s, steps)
    decreases |steps|
  {
    if steps != [] {
      var next := Do(s, steps[0]);
      StepKeepsTables(s, steps[0]);
      StepKeepsTimedIff(s, steps[0], next);
      if AllPendingTimed(next) {
        EveryPendingReservationIsTimed(next, steps[1..]);
      }
    }
  }

  /** Whenever a reservation expires at a time that is not a whole millisecond, there is an instant at which its task is
      lost: one tick before, the task is due, is handled and removed, and the reservation stays pending. */
  lemma EarlyHandlingLosesTheTask(s: Desk, o: Id, offered: seq<Id>)
    requires o in s.db.orders && AwaitsPassenger(s.db.orders[o]) && HasTimer(o, s.db.orders[o], s.config, s.timeouts)
    requires var expires := s.db.orders[o].expires.value; s.db.now == expires - 1 && expires % 1000 != 0
    requires ListsAll(offered, Members(s.keys.byOrder, s.db.now, o))
    ensures var task := OwnTask(o, s.db.orders[o], s.config);
            var lost := Do(s, HandleTimeout(task, offered));
            lost.db == s.db && task !in lost.timeouts
  {
    EarlyHandlingDrops(s, HandleTimeout(OwnTask(o, s.db.orders[o], s.config), offered), o);
  }

  /** Once the expiry has passed, handling the task releases the reservation. */
  lemma HandledExpiryReleases(s: Desk, o: Id, offered: seq<Id>)
    requires o in s.db.orders && AwaitsPassenger(s.db.orders[o]) && PendingTimed(s, o)
    requires Lapsed(s.db.orders[o], s.db.now) && ListsAll(offered, Members(s.keys.byOrder, s.db.now, o))
    ensures var after := Timeout(s, OwnTask(o, s.db.orders[o], s.config), offered);
            && after.db == Release(s.db, o, s.db.orders[o].driver.value)
            && o in after.db.orders && after.db.orders[o].status == Searching
  {
  }
}
