/** The recovery worker, one query or service call at a time, among everything else that happens: it releases lapsed
    reservations whose confirmation task was lost and asks again for searching orders, but its loop ends for good on the
    first call that fails: runStaleOrderRecoveryWorker and recoverSearchingOrders of internal/dispatch/worker.go. */
module Recovery {
  import opened Prelude
  import opened Orders
  import opened Database
  import opened Edges
  import opened Reservations
  import opened OfferStore
  import opened Dispatch
  import opened DispatchProgress

  const LISTED: nat := 500

  /** Where the loop is, with the listed orders whose turn is still to come. */
  datatype Stage = Resting | Expiring(left: seq<Id>) | Asking(left: seq<Id>) | Stopped

  datatype Watch = Watch(desk: Desk, stage: Stage)

  /** What happens next: something else, or the worker's next query or call. `begun` says whether the order's dispatch
      flag, where flags are kept, lets the request begin. */
  datatype Beat =
    | Other(step: Step)
    | StartRound(ids: seq<Id>)
    | ExpireOne
    | ListSearching(ids: seq<Id>)
    | AskOne(begun: bool)
    | EndRound

  predicate HasTurn(stage: Stage) {
    (stage.Expiring? || stage.Asking?) && stage.left != []
  }

  /** All listed lapsed orders had their turn, and the searching ones are listed. */
  predicate Sweeps(w: Watch, b: Beat) {
    w.stage == Expiring([]) && b.ListSearching? && Lists(b.ids, SearchingOrders(w.desk.db), LISTED)
  }

  ghost function Turn(w: Watch, b: Beat): Watch {
    match b
    case Other(step) => w.(desk := Do(w.desk, step))
    case StartRound(ids) =>
      if w.stage.Resting? && ListsEarliest(w.desk.db, ids, LISTED) then w.(stage := Expiring(ids)) else w
    case ExpireOne =>
      if !w.stage.Expiring? || w.stage.left == [] then w
      else if ExpireFails(w.desk, w.stage.left[0]) then w.(stage := Stopped)
      else Watch(ExpirePrice(w.desk, w.stage.left[0]), Expiring(w.stage.left[1..]))
    case ListSearching(ids) => if Sweeps(w, b) then w.(stage := Asking(ids)) else w
    case AskOne(begun) =>
      if !w.stage.Asking? || w.stage.left == [] then w
      else if !begun then w.(stage := Asking(w.stage.left[1..]))
      else if !CanStartSearch(w.desk.db, w.stage.left[0]) then w.(stage := Stopped)
      else Watch(Do(w.desk, Enqueue(w.stage.left[0], None)), Asking(w.stage.left[1..]))
    case EndRound => if w.stage == Asking([]) then w.(stage := Resting) else w
  }

  ghost function TurnAll(w: Watch, beats: seq<Beat>): Watch
    decreases |beats|
  {
    if beats == [] then w else TurnAll(Turn(w, beats[0]), beats[1..])
  }

  lemma {:induction false} TurnOneMore(w: Watch, beats: seq<Beat>, last: Beat)
    ensures TurnAll(w, beats + [last]) == Turn(TurnAll(w, beats), last)
    decreases |beats|
  {
    var longer := beats + [last];
    if beats == [] {
      assert longer == [last] && longer[1..] == [];
      assert TurnAll(Turn(w, last), []) == Turn(w, last);
    } else {
      assert longer[0] == beats[0] && longer[1..] == beats[1..] + [last];
      TurnOneMore(Turn(w, beats[0]), beats[1..], last);
    }
  }

  // ----- the worker is one more caller of the service -----

  /** The step of the dispatch machine that a beat is. */
  function CallOf(w: Watch, b: Beat): Step {
    if b.Other? then b.step
    else if b.ExpireOne? && w.stage.Expiring? && w.stage.left != [] then ExpireOrderPrice(w.stage.left[0])
    else if b.AskOne? && b.begun && w.stage.Asking? && w.stage.left != [] then Enqueue(w.stage.left[0], None)
    else Outside(Idle(w.desk.db))
  }

  lemma TurnIsCall(w: Watch, b: Beat)
    ensures Turn(w, b).desk == Do(w.desk, CallOf(w, b))
  {
    if CallOf(w, b) == Outside(Idle(w.desk.db)) {
      IdleIsNothing(w.desk.db);
    }
  }

  ghost function CallsOf(w: Watch, beats: seq<Beat>): seq<Step>
    decreases |beats|
  {
    if beats == [] then [] else [CallOf(w, beats[0])] + CallsOf(Turn(w, beats[0]), beats[1..])
  }

  /** A run with the recovery worker is a run of the dispatch machine, so that whatever holds of every run holds of it. */
  lemma {:induction false} RecoveryIsARun(w: Watch, beats: seq<Beat>)
    ensures TurnAll(w, beats).desk == DoAll(w.desk, CallsOf(w, beats))
    decreases |beats|
  {
    if beats != [] {
      TurnIsCall(w, beats[0]);
      RecoveryIsARun(Turn(w, beats[0]), beats[1..]);
      var calls := CallsOf(w, beats);
      assert calls[0] == CallOf(w, beats[0]) && calls[1..] == CallsOf(Turn(w, beats[0]), beats[1..]);
    }
  }

  lemma TurnKeepsTables(w: Watch, b: Beat)
    requires Consistent(w.desk.db)
    ensures Consistent(Turn(w, b).desk.db) && Turn(w, b).desk.db.now >= w.desk.db.now
  {
    TurnIsCall(w, b);
    StepKeepsTables(w.desk, CallOf(w, b));
    StepAdvances(w.desk, CallOf(w, b));
  }

  // ----- rows -----

  /** A price is pending only while the order is assigned, or because it was cancelled in that state. */
  predicate Tidy(row: Order) {
    row.confirmation == Some(Pending) ==>
      row.driver.Some? && row.expires.Some? && (row.status == DriverAssigned || row.status == Cancelled)
  }

  ghost predicate DeskTidy(db: Db) {
    Consistent(db) && forall o :: o in db.orders ==> Tidy(db.orders[o])
  }

  lemma ChangeKeepsTidy(before: Order, after: Order, e: Event)
    requires Changes(before, after, e) && Tidy(before)
    ensures Tidy(after)
  {
  }

  lemma EdgeKeepsTidy(before: Order, after: Order, a: Action, o: Id, now: Instant)
    requires Edge(before, after, a, o, now) && Tidy(before)
    ensures Tidy(after)
  {
    if after != before {
      var e :| after.history == before.history + [e] && Leaves(a, o, e, now) && Changes(before, after, e);
      ChangeKeepsTidy(before, after, e);
    }
  }

  lemma ActionKeepsTidy(db: Db, a: Action)
    requires DeskTidy(db)
    ensures DeskTidy(Apply(db, a))
  {
    ApplyKeeps(db, a);
    forall o | o in Apply(db, a).orders
      ensures Tidy(Apply(db, a).orders[o])
    {
      if o in db.orders {
        ActionEdge(db, a, o);
        EdgeKeepsTidy(db.orders[o], Apply(db, a).orders[o], a, o, db.now);
      } else {
        ActionAdds(db, a, o);
      }
    }
  }

  lemma StepKeepsTidy(s: Desk, step: Step)
    requires DeskTidy(s.db)
    ensures DeskTidy(Do(s, step).db)
  {
    var a, b := StepIsTransactions(s, step);
    ActionKeepsTidy(s.db, a);
    ActionKeepsTidy(Apply(s.db, a), b);
  }

  // ----- when the turn of a lapsed order fails -----

  /** Cancelled while its price was pending. */
  predicate Abandoned(row: Order) {
    row.status == Cancelled && row.confirmation == Some(Pending)
  }

  /** An expiry fails exactly on an order that was abandoned and whose time is over. */
  lemma ExpireFailsIff(s: Desk, o: Id)
    requires DeskTidy(s.db) && o in s.db.orders
    ensures ExpireFails(s, o) <==> Abandoned(s.db.orders[o]) && s.db.orders[o].expires.value <= s.db.now
  {
    assert Tidy(s.db.orders[o]) && RowOk(s.db.orders[o]);
  }

  /** The passenger of a pending order, or its driver, cancels it. */
  predicate Cancels(db: Db, a: Action, o: Id) {
    && o in db.orders && AwaitsPassenger(db.orders[o])
    && var row := db.orders[o];
    || a == PassengerCancel(o, row.passenger)
    || (a.Drive? && a.o == o && a.to == Cancelled && row.driver.Some? && row.driver.value in db.drivers
        && db.drivers[row.driver.value].user == a.user)
  }

  predicate CancelsPending(s: Desk, step: Step, o: Id) {
    step.Outside? && Cancels(s.db, step.action, o)
  }

  lemma ChangeAbandons(before: Order, after: Order, e: Event)
    requires Changes(before, after, e) && Tidy(before) && !Abandoned(before) && Abandoned(after)
    ensures AwaitsPassenger(before) && e == Moved(Cancelled)
  {
  }

  lemma EdgeAbandons(before: Order, after: Order, a: Action, o: Id, now: Instant)
    requires Edge(before, after, a, o, now) && Tidy(before) && !Abandoned(before) && Abandoned(after)
    ensures AwaitsPassenger(before) && (a.Drive? || a.PassengerCancel?)
  {
    var e :| after.history == before.history + [e] && Leaves(a, o, e, now) && Changes(before, after, e);
    ChangeAbandons(before, after, e);
  }

  lemma ActionAbandonsIff(db: Db, a: Action, o: Id)
    requires DeskTidy(db) && o in db.orders && !Abandoned(db.orders[o])
    ensures o in Apply(db, a).orders && (Abandoned(Apply(db, a).orders[o]) <==> Cancels(db, a, o))
  {
    ActionEdge(db, a, o);
    assert Tidy(db.orders[o]);
    if AwaitsPassenger(db.orders[o]) && (a.PassengerCancel? || a.Drive?) {
      CancellingAbandonsIff(db, a, o);
    } else if Abandoned(Apply(db, a).orders[o]) {
      EdgeAbandons(db.orders[o], Apply(db, a).orders[o], a, o, db.now);
    }
  }

  lemma CancellingAbandonsIff(db: Db, a: Action, o: Id)
    requires o in db.orders && AwaitsPassenger(db.orders[o]) && (a.PassengerCancel? || a.Drive?)
    ensures o in Apply(db, a).orders && (Abandoned(Apply(db, a).orders[o]) <==> Cancels(db, a, o))
  {
    if a.PassengerCancel? {
      CancelAbandonsIff(db, a.o, a.passenger, o);
    } else {
      DriveAbandonsIff(db, a.user, a.o, a.to, a.finalPrice, o);
    }
  }

  lemma CancelAbandonsIff(db: Db, p: Id, passenger: Id, o: Id)
    requires o in db.orders && AwaitsPassenger(db.orders[o])
    ensures o in Cancel(db, p, passenger).orders
    ensures Abandoned(Cancel(db, p, passenger).orders[o]) <==> p == o && passenger == db.orders[o].passenger
  {
  }

  lemma DriveAbandonsIff(db: Db, user: Id, p: Id, to: OrderStatus, finalPrice: Option<int>, o: Id)
    requires o in db.orders && AwaitsPassenger(db.orders[o])
    ensures o in Move(db, user, p, to, finalPrice).orders
    ensures Abandoned(Move(db, user, p, to, finalPrice).orders[o]) <==> Cancels(db, Drive(user, p, to, finalPrice), o)
  {
  }

  /** Exactly these steps abandon an order. */
  lemma AbandonsIff(s: Desk, step: Step, o: Id)
    requires DeskTidy(s.db) && o in s.db.orders && !Abandoned(s.db.orders[o])
    ensures o in Do(s, step).db.orders && (Abandoned(Do(s, step).db.orders[o]) <==> CancelsPending(s, step, o))
  {
    if step.Outside? {
      OutsideAbandonsIff(s, step.action, o, Do(s, step).db);
    } else {
      ServiceAbandonsNothing(s, step, o);
    }
  }

  lemma OutsideAbandonsIff(s: Desk, a: Action, o: Id, after: Db)
    requires DeskTidy(s.db) && o in s.db.orders && !Abandoned(s.db.orders[o]) && after == Do(s, Outside(a)).db
    ensures o in after.orders && (Abandoned(after.orders[o]) <==> Cancels(s.db, a, o))
  {
    OutsideIsIts(s, a);
    if Foreign(a) {
      AppliedAbandonsIff(s.db, a, o, after);
    }
  }

  lemma AppliedAbandonsIff(db: Db, a: Action, o: Id, after: Db)
    requires DeskTidy(db) && o in db.orders && !Abandoned(db.orders[o]) && after == Apply(db, a)
    ensures o in after.orders && (Abandoned(after.orders[o]) <==> Cancels(db, a, o))
  {
    ActionAbandonsIff(db, a, o);
  }

  lemma OutsideIsIts(s: Desk, a: Action)
    ensures Do(s, Outside(a)).db == if Foreign(a) then Apply(s.db, a) else s.db
  {
  }

  lemma ServiceAbandonsNothing(s: Desk, step: Step, o: Id)
    requires DeskTidy(s.db) && o in s.db.orders && !Abandoned(s.db.orders[o]) && !step.Outside?
    ensures o in Do(s, step).db.orders && !Abandoned(Do(s, step).db.orders[o])
  {
    var a, b := ServiceRuns(s, step);
    PairCancelsNothing(s.db, a, Apply(s.db, a), b, Do(s, step).db, o);
  }

  lemma ServiceRuns(s: Desk, step: Step) returns (a: Action, b: Action)
    requires !step.Outside?
    ensures Do(s, step).db == Apply(Apply(s.db, a), b)
    ensures !a.PassengerCancel? && !a.Drive? && !b.PassengerCancel? && !b.Drive?
  {
    a, b := StepIsTransactions(s, step);
  }

  lemma PairCancelsNothing(db: Db, a: Action, middle: Db, b: Action, after: Db, o: Id)
    requires DeskTidy(db) && o in db.orders && !Abandoned(db.orders[o]) && middle == Apply(db, a) && after == Apply(middle, b)
    requires !a.PassengerCancel? && !a.Drive? && !b.PassengerCancel? && !b.Drive?
    ensures o in after.orders && !Abandoned(after.orders[o])
  {
    NothingCancelled(db, a, o, middle);
    NothingCancelled(middle, b, o, after);
  }

  lemma NothingCancelled(db: Db, a: Action, o: Id, after: Db)
    requires DeskTidy(db) && o in db.orders && !Abandoned(db.orders[o]) && !a.PassengerCancel? && !a.Drive?
    requires after == Apply(db, a)
    ensures DeskTidy(after) && o in after.orders && !Abandoned(after.orders[o])
  {
    ActionKeepsTidy(db, a);
    ActionAbandonsIff(db, a, o);
  }

  lemma ChangeKeepsAbandoned(before: Order, after: Order, e: Event)
    requires Changes(before, after, e) && Abandoned(before)
    ensures Abandoned(after) && after.expires == before.expires
  {
  }

  lemma EdgeKeepsAbandoned(before: Order, after: Order, a: Action, o: Id, now: Instant)
    requires Edge(before, after, a, o, now) && Abandoned(before)
    ensures Abandoned(after) && after.expires == before.expires
  {
    if after != before {
      var e :| after.history == before.history + [e] && Leaves(a, o, e, now) && Changes(before, after, e);
      ChangeKeepsAbandoned(before, after, e);
    }
  }

  lemma ActionKeepsAbandoned(db: Db, a: Action, o: Id)
    requires o in db.orders && Abandoned(db.orders[o])
    ensures var after := Apply(db, a).orders;
            o in after && Abandoned(after[o]) && after[o].expires == db.orders[o].expires
  {
    ActionEdge(db, a, o);
    EdgeKeepsAbandoned(db.orders[o], Apply(db, a).orders[o], a, o, db.now);
  }

  lemma StepKeepsAbandoned(s: Desk, step: Step, o: Id)
    requires o in s.db.orders && Abandoned(s.db.orders[o])
    ensures var after := Do(s, step).db.orders;
            o in after && Abandoned(after[o]) && after[o].expires == s.db.orders[o].expires
  {
    var a, b := StepIsTransactions(s, step);
    ActionKeepsAbandoned(s.db, a, o);
    ActionKeepsAbandoned(Apply(s.db, a), b, o);
  }

  lemma {:induction false} AbandonedForGood(s: Desk, steps: seq<Step>, o: Id)
    requires o in s.db.orders && Abandoned(s.db.orders[o])
    ensures var after := DoAll(s, steps).db.orders;
            o in after && Abandoned(after[o]) && after[o].expires == s.db.orders[o].expires
    decreases |steps|
  {
    if steps != [] {
      StepKeepsAbandoned(s, steps[0], o);
      AbandonedForGood(Do(s, steps[0]), steps[1..], o);
    }
  }

  /** Somewhere in the run the order is cancelled while its price is pending, with an expiry that is over by then. */
  ghost predicate CancelledPending(s: Desk, steps: seq<Step>, o: Id, end: Instant)
    decreases |steps|
  {
    steps != [] && ((CancelsPending(s, steps[0], o) && s.db.orders[o].expires.Some? && s.db.orders[o].expires.value <= end)
                    || CancelledPending(Do(s, steps[0]), steps[1..], o, end))
  }

  lemma {:induction false} AbandonedIsOver(s: Desk, steps: seq<Step>, o: Id, end: Instant)
    requires o in s.db.orders && Abandoned(s.db.orders[o])
    ensures !CancelledPending(s, steps, o, end)
    decreases |steps|
  {
    if steps != [] {
      StepKeepsAbandoned(s, steps[0], o);
      AbandonedIsOver(Do(s, steps[0]), steps[1..], o, end);
    }
  }

  lemma CancellingKeepsExpiry(s: Desk, step: Step, o: Id)
    requires CancelsPending(s, step, o) && DeskTidy(s.db)
    ensures o in Do(s, step).db.orders && Do(s, step).db.orders[o].expires == s.db.orders[o].expires
  {
    var a := step.action;
    ActionEdge(s.db, a, o);
    EdgeKeepsExpiry(s.db.orders[o], Apply(s.db, a).orders[o], a, o, s.db.now);
  }

  lemma EdgeKeepsExpiry(before: Order, after: Order, a: Action, o: Id, now: Instant)
    requires Edge(before, after, a, o, now) && (a.PassengerCancel? || a.Drive?)
    ensures after.expires == before.expires
  {
  }

  /** By the end of a run an order stands abandoned, its time over, exactly when the run cancelled it while pending. */
  lemma {:induction false} AbandonedByIff(s: Desk, steps: seq<Step>, o: Id, end: Instant)
    requires DeskTidy(s.db) && o in s.db.orders && !Abandoned(s.db.orders[o])
    ensures var after := DoAll(s, steps).db.orders;
            o in after && (Abandoned(after[o]) && after[o].expires.Some? && after[o].expires.value <= end
                           <==> CancelledPending(s, steps, o, end))
    decreases |steps|
  {
    if steps != [] {
      var next := Do(s, steps[0]);
      AbandonsIff(s, steps[0], o);
      StepKeepsTidy(s, steps[0]);
      if CancelsPending(s, steps[0], o) {
        CancellingKeepsExpiry(s, steps[0], o);
        AbandonedForGood(next, steps[1..], o);
        AbandonedIsOver(next, steps[1..], o, end);
      } else {
        AbandonedByIff(next, steps[1..], o, end);
      }
    }
  }

  lemma {:induction false} RunKeepsTidy(s: Desk, steps: seq<Step>)
    requires DeskTidy(s.db)
    ensures DeskTidy(DoAll(s, steps).db)
    decreases |steps|
  {
    if steps != [] {
      StepKeepsTidy(s, steps[0]);
      RunKeepsTidy(Do(s, steps[0]), steps[1..]);
    }
  }

  /** Whatever happens between the listing of a lapsed order and its turn, the turn fails exactly when its passenger or its
      driver cancelled it in the meantime, its price pending. */
  lemma ListedExpiryFailsIff(s: Desk, steps: seq<Step>, o: Id)
    requires DeskTidy(s.db) && Expired(s.db, o)
    ensures var turn := DoAll(s, steps);
            ExpireFails(turn, o) <==> CancelledPending(s, steps, o, turn.db.now)
  {
    var turn := DoAll(s, steps);
    AbandonedByIff(s, steps, o, turn.db.now);
    RunKeepsTidy(s, steps);
    ExpireFailsIff(turn, o);
    assert Tidy(turn.db.orders[o]);
  }

  // ----- when the turn of a searching order fails -----

  predicate Sought(db: Db, o: Id) {
    o in db.orders && db.orders[o].status == Searching
  }

  /** The last radius of the order finds nobody: while its task is processed, or when its offers time out. */
  predicate GivesUp(s: Desk, step: Step, o: Id)
    requires o in s.db.orders
  {
    || (step.ProcessTask? && s.queue != [] && s.queue[0].order == o && Exhausted(s, s.queue[0], step.nearby))
    || (step.HandleTimeout? && step.task.order == o && step.task.attempt != -1 && IsDue(s, step.task)
        && ListsAll(step.offered, Members(s.keys.byOrder, s.db.now, o))
        && RadiusFor(ConfigFor(s.config, step.task), step.task.attempt + 1).None?)
  }

  /** A driver takes the order, its passenger cancels it, or it is given up. */
  ghost predicate EndsSearch(s: Desk, step: Step, o: Id) {
    && o in s.db.orders
    && (|| (step.AcceptOffer? && step.order == o && CanAccept(s, o, step.driver, step.eligible))
        || step == Outside(PassengerCancel(o, s.db.orders[o].passenger))
        || GivesUp(s, step, o))
  }

  lemma SearchedRow(row: Order)
    requires RowOk(row) && row.status == Searching
    ensures row.driver.None?
  {
  }

  lemma ProcessEndsSearchIff(s: Desk, nearby: seq<Id>, o: Id)
    requires Sought(s.db, o) && s.db.orders[o].driver.None?
    ensures Sought(Process(s, nearby).db, o) <==> !GivesUp(s, ProcessTask(nearby), o)
  {
    if s.queue != [] {
      TaskEndsSearchIff(s.(queue := s.queue[1..]), s.queue[0], nearby, o);
    }
  }

  lemma TaskEndsSearchIff(s: Desk, task: Task, nearby: seq<Id>, o: Id)
    requires Sought(s.db, o) && s.db.orders[o].driver.None?
    ensures Sought(ProcessOne(s, task, nearby).db, o) <==> !(task.order == o && Exhausted(s, task, nearby))
  {
    if task.order == o {
      SearchedTask(s, task, nearby);
    } else {
      OthersStaySought(s.db, task.order, o);
      OthersStaySought(StartSearch(s.db, task.order), task.order, o);
    }
  }

  lemma SearchedTask(s: Desk, task: Task, nearby: seq<Id>)
    requires Sought(s.db, task.order) && s.db.orders[task.order].driver.None?
    ensures Sought(ProcessOne(s, task, nearby).db, task.order) <==> !Exhausted(s, task, nearby)
  {
  }

  lemma OthersStaySought(db: Db, p: Id, o: Id)
    requires Sought(db, o) && p != o
    ensures Sought(GiveUp(db, p), o) && Sought(StartSearch(db, p), o)
  {
  }

  lemma TimeoutEndsSearchIff(s: Desk, task: Task, offered: seq<Id>, o: Id)
    requires Sought(s.db, o) && s.db.orders[o].driver.None?
    ensures Sought(Timeout(s, task, offered).db, o) <==> !GivesUp(s, HandleTimeout(task, offered), o)
  {
  }

  lemma AcceptEndsSearchIff(s: Desk, p: Id, d: Id, eligible: bool, o: Id)
    requires Sought(s.db, o)
    ensures Sought(Accept(s, p, d, eligible).db, o) <==> !(p == o && CanAccept(s, p, d, eligible))
  {
    var bid := AcceptBid(s, p, d, eligible);
    if bid.Some? && CanAssign(s.db, bid.value) {
      TakenTables(s, bid.value);
    }
  }

  lemma EdgeKeepsSearch(before: Order, after: Order, a: Action, o: Id, now: Instant)
    requires Edge(before, after, a, o, now) && before.status == Searching && before.driver.None?
    requires !a.Reserve? && !a.Fail? && !a.Drive? && !a.Finish? && (a.PassengerCancel? ==> a.o != o)
    ensures after.status == Searching
  {
  }

  lemma QuietActionKeepsSearch(db: Db, a: Action, o: Id)
    requires Sought(db, o) && db.orders[o].driver.None? && !a.Reserve? && !a.Fail?
    ensures Sought(Apply(db, a), o) <==> a != PassengerCancel(o, db.orders[o].passenger)
  {
    if a.PassengerCancel? && a.o == o {
      OwnCancelEndsSearchIff(db, a.passenger, o);
    } else if a.Drive? || a.Finish? {
      DrivingSparesSearch(db, a, o);
    } else {
      ActionEdge(db, a, o);
      EdgeKeepsSearch(db.orders[o], Apply(db, a).orders[o], a, o, db.now);
    }
  }

  lemma DrivingSparesSearch(db: Db, a: Action, o: Id)
    requires Sought(db, o) && db.orders[o].driver.None? && (a.Drive? || a.Finish?)
    ensures Sought(Apply(db, a), o)
  {
  }

  lemma OwnCancelEndsSearchIff(db: Db, passenger: Id, o: Id)
    requires Sought(db, o)
    ensures Sought(Cancel(db, o, passenger), o) <==> passenger != db.orders[o].passenger
  {
  }

  lemma OutsideEndsSearchIff(s: Desk, a: Action, o: Id)
    requires Sought(s.db, o) && s.db.orders[o].driver.None?
    ensures Sought(Do(s, Outside(a)).db, o) <==> !EndsSearch(s, Outside(a), o)
  {
    if Foreign(a) {
      QuietActionKeepsSearch(s.db, a, o);
    }
  }

  lemma OtherEndsSearchIff(s: Desk, step: Step, o: Id)
    requires Sought(s.db, o) && s.db.orders[o].driver.None?
    requires !step.ProcessTask? && !step.HandleTimeout? && !step.AcceptOffer?
    ensures Sought(Do(s, step).db, o) <==> !EndsSearch(s, step, o)
  {
    if step.Outside? {
      OutsideEndsSearchIff(s, step.action, o);
    } else {
      var a := SingleTransaction(s, step);
      QuietActionKeepsSearch(s.db, a, o);
    }
  }

  lemma CallEndsSearchIff(s: Desk, step: Step, o: Id)
    requires Sought(s.db, o) && s.db.orders[o].driver.None? && (step.ProcessTask? || step.HandleTimeout?)
    ensures Sought(Do(s, step).db, o) <==> !EndsSearch(s, step, o)
  {
    if step.ProcessTask? {
      ProcessEndsSearchIff(s, step.nearby, o);
    } else {
      TimeoutEndsSearchIff(s, step.task, step.offered, o);
    }
  }

  /** Exactly these steps end the search for an order. */
  lemma EndsSearchIff(s: Desk, step: Step, o: Id)
    requires Consistent(s.db) && Sought(s.db, o)
    ensures Sought(Do(s, step).db, o) <==> !EndsSearch(s, step, o)
  {
    SearchedRow(s.db.orders[o]);
    if step.ProcessTask? || step.HandleTimeout? {
      CallEndsSearchIff(s, step, o);
    } else if step.AcceptOffer? {
      OfferEndsSearchIff(s, step, o);
    } else {
      OtherEndsSearchIff(s, step, o);
    }
  }

  lemma OfferEndsSearchIff(s: Desk, step: Step, o: Id)
    requires Sought(s.db, o) && step.AcceptOffer?
    ensures Sought(Do(s, step).db, o) <==> !EndsSearch(s, step, o)
  {
    AcceptEndsSearchIff(s, step.order, step.driver, step.eligible, o);
  }

  // ----- when a round fails -----

  /** The listed orders are known, and those to be asked for again are past their creation. */
  ghost predicate Known(w: Watch) {
    && DeskTidy(w.desk.db)
    && (w.stage.Expiring? || w.stage.Asking? ==> forall o :: o in w.stage.left ==> o in w.desk.db.orders)
    && (w.stage.Asking? ==> forall o :: o in w.stage.left ==> w.desk.db.orders[o].status != Created)
  }

  /** At its turn a listed lapsed order was cancelled while pending, or a listed searching order is no longer sought. */
  predicate StopsNow(w: Watch, b: Beat) {
    HasTurn(w.stage)
    && var o := w.stage.left[0];
       || (b.ExpireOne? && w.stage.Expiring? && o in w.desk.db.orders && Abandoned(w.desk.db.orders[o])
           && w.desk.db.orders[o].expires.Some? && w.desk.db.orders[o].expires.value <= w.desk.db.now)
       || (b == AskOne(true) && w.stage.Asking? && !Sought(w.desk.db, o))
  }

  lemma TurnStopsIff(w: Watch, b: Beat)
    requires Known(w) && !w.stage.Stopped?
    ensures Turn(w, b).stage.Stopped? <==> StopsNow(w, b)
  {
    if HasTurn(w.stage) {
      var o := w.stage.left[0];
      assert o in w.stage.left;
      var row := w.desk.db.orders[o];
      assert Tidy(row) && RowOk(row);
      ExpireFailsIff(w.desk, o);
    }
  }

  lemma EdgeNeverRecreates(before: Order, after: Order, a: Action, o: Id, now: Instant)
    requires Edge(before, after, a, o, now) && before.status != Created
    ensures after.status != Created
  {
  }

  lemma ActionNeverRecreates(db: Db, a: Action, o: Id)
    requires o in db.orders
    ensures o in Apply(db, a).orders && (db.orders[o].status != Created ==> Apply(db, a).orders[o].status != Created)
  {
    ActionEdge(db, a, o);
    if db.orders[o].status != Created {
      EdgeNeverRecreates(db.orders[o], Apply(db, a).orders[o], a, o, db.now);
    }
  }

  lemma StepNeverRecreates(s: Desk, step: Step, o: Id)
    requires o in s.db.orders
    ensures o in Do(s, step).db.orders && (s.db.orders[o].status != Created ==> Do(s, step).db.orders[o].status != Created)
  {
    var a, b := StepIsTransactions(s, step);
    ActionNeverRecreates(s.db, a, o);
    ActionNeverRecreates(Apply(s.db, a), b, o);
  }

  lemma TurnKeepsTidy(w: Watch, b: Beat)
    requires DeskTidy(w.desk.db)
    ensures DeskTidy(Turn(w, b).desk.db)
  {
    TurnIsCall(w, b);
    StepKeepsTidy(w.desk, CallOf(w, b));
  }

  /** The listed orders that wait for their turn: those of before, or newly listed ones. */
  lemma TurnLists(w: Watch, b: Beat, after: Stage)
    requires after == Turn(w, b).stage
    ensures && (after.Expiring? ==> forall o :: o in after.left ==>
                  (w.stage.Expiring? && o in w.stage.left) || Expired(w.desk.db, o))
            && (after.Asking? ==> forall o :: o in after.left ==>
                  (w.stage.Asking? && o in w.stage.left) || o in SearchingOrders(w.desk.db))
  {
    if b.StartRound? && w.stage.Resting? && ListsEarliest(w.desk.db, b.ids, LISTED) {
      assert forall o :: o in b.ids ==> o in ExpiredOrders(w.desk.db);
    }
  }

  lemma TurnKeepsKnown(w: Watch, b: Beat)
    requires Known(w)
    ensures Known(Turn(w, b))
  {
    TurnKeepsTidy(w, b);
    TurnIsCall(w, b);
    TurnLists(w, b, Turn(w, b).stage);
    forall o | o in w.desk.db.orders
      ensures o in Turn(w, b).desk.db.orders
              && (w.desk.db.orders[o].status != Created ==> Turn(w, b).desk.db.orders[o].status != Created)
    {
      StepNeverRecreates(w.desk, CallOf(w, b), o);
    }
  }

  ghost predicate StopsIn(w: Watch, beats: seq<Beat>)
    decreases |beats|
  {
    beats != [] && (StopsNow(w, beats[0]) || StopsIn(Turn(w, beats[0]), beats[1..]))
  }

  lemma {:induction false} StoppedForGood(w: Watch, beats: seq<Beat>)
    requires w.stage.Stopped?
    ensures TurnAll(w, beats).stage.Stopped? && !StopsIn(w, beats)
    decreases |beats|
  {
    if beats != [] {
      StoppedForGood(Turn(w, beats[0]), beats[1..]);
    }
  }

  /** In any run, whatever happens between its queries and calls, the worker has stopped exactly when at its turn a listed
      lapsed order had been cancelled while pending, or a listed searching order was no longer searching. */
  lemma {:induction false} WorkerStopsIff(w: Watch, beats: seq<Beat>)
    requires Known(w) && !w.stage.Stopped?
    ensures TurnAll(w, beats).stage.Stopped? <==> StopsIn(w, beats)
    decreases |beats|
  {
    if beats != [] {
      var next := Turn(w, beats[0]);
      TurnStopsIff(w, beats[0]);
      TurnKeepsKnown(w, beats[0]);
      if next.stage.Stopped? {
        StoppedForGood(next, beats[1..]);
      } else {
        WorkerStopsIff(next, beats[1..]);
      }
    }
  }

  // ----- what a caller can check -----

  /** Something else cancels a listed lapsed order that is pending still, or ends the search for a listed searching one,
      before its turn. */
  ghost predicate Disturbs(w: Watch, b: Beat) {
    b.Other?
    && (|| (w.stage.Expiring? && exists o :: o in w.stage.left && CancelsPending(w.desk, b.step, o))
        || (w.stage.Asking? && exists o :: o in w.stage.left && EndsSearch(w.desk, b.step, o)))
  }

  ghost predicate Undisturbed(w: Watch, beats: seq<Beat>)
    decreases |beats|
  {
    beats == [] || (!Disturbs(w, beats[0]) && Undisturbed(Turn(w, beats[0]), beats[1..]))
  }

  ghost predicate OnTrack(w: Watch) {
    && DeskTidy(w.desk.db) && !w.stage.Stopped?
    && (w.stage.Expiring? ==> forall o :: o in w.stage.left ==>
          o in w.desk.db.orders && !Abandoned(w.desk.db.orders[o]))
    && (w.stage.Asking? ==> forall o :: o in w.stage.left ==> Sought(w.desk.db, o))
  }

  lemma OwnCallsDisturbNothing(w: Watch, b: Beat, step: Step, o: Id)
    requires !Disturbs(w, b) && HasTurn(w.stage) && o in w.stage.left && step == CallOf(w, b)
    ensures w.stage.Expiring? ==> !CancelsPending(w.desk, step, o)
    ensures w.stage.Asking? ==> !EndsSearch(w.desk, step, o)
  {
  }

  lemma ListedStaysUnabandoned(w: Watch, b: Beat, o: Id, after: Desk)
    requires OnTrack(w) && !Disturbs(w, b) && o in w.desk.db.orders && !Abandoned(w.desk.db.orders[o])
    requires w.stage.Expiring? && o in w.stage.left && after == Turn(w, b).desk
    ensures o in after.db.orders && !Abandoned(after.db.orders[o])
  {
    TurnIsCall(w, b);
    OwnCallsDisturbNothing(w, b, CallOf(w, b), o);
    AbandonsIff(w.desk, CallOf(w, b), o);
  }

  lemma ListedStaysSought(w: Watch, b: Beat, o: Id, after: Desk)
    requires OnTrack(w) && !Disturbs(w, b) && Sought(w.desk.db, o)
    requires w.stage.Asking? && o in w.stage.left && after == Turn(w, b).desk
    ensures Sought(after.db, o)
  {
    TurnIsCall(w, b);
    OwnCallsDisturbNothing(w, b, CallOf(w, b), o);
    EndsSearchIff(w.desk, CallOf(w, b), o);
  }

  lemma OnTrackDoesNotStop(w: Watch, b: Beat)
    requires OnTrack(w)
    ensures !Turn(w, b).stage.Stopped?
  {
    if HasTurn(w.stage) {
      var o := w.stage.left[0];
      assert o in w.stage.left;
      assert RowOk(w.desk.db.orders[o]);
      ExpireFailsIff(w.desk, o);
    }
  }

  lemma TurnKeepsOnTrack(w: Watch, b: Beat)
    requires OnTrack(w) && !Disturbs(w, b)
    ensures OnTrack(Turn(w, b))
  {
    TurnKeepsTidy(w, b);
    OnTrackDoesNotStop(w, b);
    if Turn(w, b).stage.Expiring? {
      ExpiringStaysOnTrack(w, b, Turn(w, b));
    }
    if Turn(w, b).stage.Asking? {
      AskingStaysOnTrack(w, b, Turn(w, b));
    }
  }

  lemma ExpiringStaysOnTrack(w: Watch, b: Beat, after: Watch)
    requires OnTrack(w) && !Disturbs(w, b) && after == Turn(w, b) && after.stage.Expiring?
    ensures forall o :: o in after.stage.left ==> o in after.desk.db.orders && !Abandoned(after.desk.db.orders[o])
  {
    TurnLists(w, b, after.stage);
    forall o | o in after.stage.left
      ensures o in after.desk.db.orders && !Abandoned(after.desk.db.orders[o])
    {
      if w.stage.Expiring? {
        ListedStaysUnabandoned(w, b, o, after.desk);
      } else {
        NewlyListed(w, b, o, after);
      }
    }
  }

  lemma NewlyListed(w: Watch, b: Beat, o: Id, after: Watch)
    requires !w.stage.Expiring? && after == Turn(w, b) && after.stage.Expiring? && Expired(w.desk.db, o)
    ensures o in after.desk.db.orders && !Abandoned(after.desk.db.orders[o])
  {
  }

  lemma AskingStaysOnTrack(w: Watch, b: Beat, after: Watch)
    requires OnTrack(w) && !Disturbs(w, b) && after == Turn(w, b) && after.stage.Asking?
    ensures forall o :: o in after.stage.left ==> Sought(after.desk.db, o)
  {
    TurnLists(w, b, after.stage);
    forall o | o in after.stage.left
      ensures Sought(after.desk.db, o)
    {
      if w.stage.Asking? {
        ListedStaysSought(w, b, o, after.desk);
      }
    }
  }

  /** A run in which nobody cancels a listed lapsed order while pending, and nobody takes, cancels or gives up a listed
      searching order, before its turn, never stops the worker. */
  lemma {:induction false} UndisturbedNeverStops(w: Watch, beats: seq<Beat>)
    requires OnTrack(w) && Undisturbed(w, beats)
    ensures OnTrack(TurnAll(w, beats)) && !TurnAll(w, beats).stage.Stopped?
    decreases |beats|
  {
    if beats != [] {
      TurnKeepsOnTrack(w, beats[0]);
      UndisturbedNeverStops(Turn(w, beats[0]), beats[1..]);
    }
  }
}
