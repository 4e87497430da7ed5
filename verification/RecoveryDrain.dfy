/** How long a lapsed reservation can wait: the recovery worker lists the earliest to expire, so that one whose turn comes
    is released, and each round whose list is worked off brings it five hundred places nearer, whatever else happens:
    recoverSearchingOrders of internal/dispatch/worker.go. */
module RecoveryDrain {
  import opened Prelude
  import opened Database
  import opened Reservations
  import opened Dispatch
  import opened DispatchProgress
  import opened Recovery

  // ----- who is ahead -----

  /** The lapsed reservations that expired no later than this. */
  function Ahead(db: Db, end: Instant): set<Id> {
    set o | o in db.orders && Expired(db, o) && db.orders[o].expires.value <= end
  }

  lemma QuietStepAddsNone(s: Desk, step: Step, end: Instant, o: Id)
    requires Consistent(s.db) && end <= s.db.now && !step.AcceptOffer? && o in Ahead(Do(s, step).db, end)
    ensures o in Ahead(s.db, end)
  {
    var a, b := StepIsTransactions(s, step);
    PairStartsNoPending(s.db, a, b, o);
  }

  /** A new reservation expires later than now. */
  lemma AcceptanceAddsNone(s: Desk, p: Id, d: Id, eligible: bool, end: Instant, o: Id)
    requires end <= s.db.now && o in Ahead(Accept(s, p, d, eligible).db, end)
    ensures o in Ahead(s.db, end)
  {
    var bid := AcceptBid(s, p, d, eligible);
    if bid.Some? && CanAssign(s.db, bid.value) {
      TakenTables(s, bid.value);
    }
  }

  /** Nobody joins those ahead, whatever happens. */
  lemma StepAddsNone(s: Desk, step: Step, end: Instant)
    requires Consistent(s.db) && end <= s.db.now
    ensures Ahead(Do(s, step).db, end) <= Ahead(s.db, end)
  {
    forall o | o in Ahead(Do(s, step).db, end)
      ensures o in Ahead(s.db, end)
    {
      if step.AcceptOffer? {
        AcceptanceAddsNone(s, step.order, step.driver, step.eligible, end, o);
      } else {
        QuietStepAddsNone(s, step, end, o);
      }
    }
  }

  lemma TurnAddsNone(w: Watch, b: Beat, end: Instant)
    requires Consistent(w.desk.db) && end <= w.desk.db.now
    ensures Ahead(Turn(w, b).desk.db, end) <= Ahead(w.desk.db, end)
  {
    TurnIsCall(w, b);
    StepAddsNone(w.desk, CallOf(w, b), end);
  }

  lemma {:induction false} RunAddsNone(w: Watch, beats: seq<Beat>, end: Instant)
    requires Consistent(w.desk.db) && end <= w.desk.db.now
    ensures Ahead(TurnAll(w, beats).desk.db, end) <= Ahead(w.desk.db, end)
    decreases |beats|
  {
    if beats != [] {
      TurnAddsNone(w, beats[0], end);
      TurnKeepsTables(w, beats[0]);
      RunAddsNone(Turn(w, beats[0]), beats[1..], end);
    }
  }

  /** A turn that does not fail takes its order out. */
  lemma ExpiryTakesOut(s: Desk, o: Id, end: Instant)
    requires Consistent(s.db) && !ExpireFails(s, o)
    ensures o !in Ahead(ExpirePrice(s, o).db, end)
  {
    assert RowOk(s.db.orders[o]);
  }

  // ----- counting -----

  function IdSet(ids: seq<Id>): set<Id> {
    set o | o in ids
  }

  lemma {:induction false} DistinctCount(ids: seq<Id>)
    requires NoDuplicates(ids)
    ensures |IdSet(ids)| == |ids|
  {
    if ids != [] {
      var front, last := ids[..|ids| - 1], ids[|ids| - 1];
      DistinctCount(front);
      assert ids == front + [last];
      assert IdSet(ids) == IdSet(front) + {last};
    }
  }

  lemma SmallerCount(part: set<Id>, whole: set<Id>)
    requires part <= whole
    ensures |part| <= |whole|
  {
    assert whole == part + (whole - part);
  }

  /** An order that is ahead is listed, or as many as the listing takes are listed before it. */
  lemma ListedOrBehind(db: Db, ids: seq<Id>, o: Id, end: Instant)
    requires ListsEarliest(db, ids, LISTED) && o in Ahead(db, end) && o !in ids
    ensures |Ahead(db, end) - IdSet(ids)| == |Ahead(db, end)| - LISTED
  {
    assert o in ExpiredOrders(db);
    LeftOutMeansFull(ids, ExpiredOrders(db), o);
    forall p | p in ids
      ensures p in Ahead(db, db.orders[o].expires.value)
    {
      var i :| 0 <= i < |ids| && ids[i] == p;
      assert ExpiresBefore(db.orders, ids[i], o);
      assert p in ExpiredOrders(db);
    }
    assert IdSet(ids) <= Ahead(db, end);
    DistinctCount(ids);
    assert Ahead(db, end) == (Ahead(db, end) - IdSet(ids)) + IdSet(ids);
  }

  lemma LeftOutMeansFull(ids: seq<Id>, members: set<Id>, o: Id)
    requires Lists(ids, members, LISTED) && o in members && o !in ids
    ensures |ids| == LISTED
  {
    DistinctCount(ids);
    assert IdSet(ids) <= members - {o};
    SmallerCount(IdSet(ids), members - {o});
  }

  // ----- a round with nothing in between -----

  predicate OwnBeats(beats: seq<Beat>) {
    forall i :: 0 <= i < |beats| ==> !beats[i].Other?
  }

  lemma {:induction false} OwnBeatsDisturbNothing(w: Watch, beats: seq<Beat>)
    requires OwnBeats(beats)
    ensures Undisturbed(w, beats)
    decreases |beats|
  {
    if beats != [] {
      OwnBeatsDisturbNothing(Turn(w, beats[0]), beats[1..]);
    }
  }

  /** The worker's own beats lead here. */
  ghost predicate Leads(start: Watch, beats: seq<Beat>, w: Watch) {
    w == TurnAll(start, beats) && OwnBeats(beats)
  }

  lemma LeadsOn(start: Watch, beats: seq<Beat>, w: Watch, b: Beat, next: Watch)
    requires Leads(start, beats, w) && next == Turn(w, b) && !b.Other?
    ensures Leads(start, beats + [b], next)
  {
    TurnOneMore(start, beats, b);
  }

  lemma AloneNeverStops(w: Watch, beats: seq<Beat>)
    requires DeskTidy(w.desk.db) && w.stage.Resting? && OwnBeats(beats)
    ensures !TurnAll(w, beats).stage.Stopped?
  {
    OwnBeatsDisturbNothing(w, beats);
    UndisturbedNeverStops(w, beats);
  }

  /** An expiry that does not fail takes its own order off the lapsed ones, and no other. */
  lemma ExpiringTakesOne(s: Desk, o: Id)
    requires Consistent(s.db) && !ExpireFails(s, o)
    ensures ExpiredOrders(ExpirePrice(s, o).db) == ExpiredOrders(s.db) - {o}
  {
    assert RowOk(s.db.orders[o]);
  }

  lemma EnqueueingTakesNone(s: Desk, o: Id)
    requires Consistent(s.db)
    ensures ExpiredOrders(Do(s, Enqueue(o, None)).db) == ExpiredOrders(s.db)
  {
  }

  /** What is lapsed and not to be released in this round. */
  function LeftOver(db: Db, left: seq<Id>): set<Id> {
    ExpiredOrders(db) - IdSet(left)
  }

  lemma OwnExpiryKeepsLeftOver(w: Watch, next: Watch)
    requires Consistent(w.desk.db) && w.stage.Expiring? && w.stage.left != [] && next == Turn(w, ExpireOne) && next.stage.Expiring?
    ensures LeftOver(next.desk.db, next.stage.left) == LeftOver(w.desk.db, w.stage.left) && Consistent(next.desk.db)
  {
    TurnKeepsTables(w, ExpireOne);
    ExpiringTakesOne(w.desk, w.stage.left[0]);
    OneLessLeft(ExpiredOrders(w.desk.db), w.stage.left);
  }

  lemma OneLessLeft(lapsed: set<Id>, left: seq<Id>)
    requires left != []
    ensures lapsed - {left[0]} - IdSet(left[1..]) == lapsed - IdSet(left)
  {
    assert left == [left[0]] + left[1..];
  }

  ghost predicate SameLapsed(before: Db, after: Db) {
    Consistent(before) ==> Consistent(after) && ExpiredOrders(after) == ExpiredOrders(before)
  }

  lemma OwnRequestKeepsLapsed(first: Db, w: Watch, begun: bool, next: Watch)
    requires SameLapsed(first, w.desk.db) && w.stage.Asking? && w.stage.left != [] && next == Turn(w, AskOne(begun))
    ensures SameLapsed(first, next.desk.db)
  {
    if Consistent(first) {
      TurnKeepsTables(w, AskOne(begun));
      EnqueueingTakesNone(w.desk, w.stage.left[0]);
    }
  }

  // ----- rounds -----

  /** How often a run works off a list of lapsed orders to its end. */
  ghost function Swept(w: Watch, beats: seq<Beat>): nat
    decreases |beats|
  {
    if beats == [] then 0
    else (if Sweeps(w, beats[0]) then 1 else 0) + Swept(Turn(w, beats[0]), beats[1..])
  }

  lemma {:induction false} StoppedSweepsNone(w: Watch, beats: seq<Beat>)
    requires w.stage.Stopped?
    ensures Swept(w, beats) == 0
    decreases |beats|
  {
    if beats != [] {
      StoppedSweepsNone(Turn(w, beats[0]), beats[1..]);
    }
  }

  /** How many rounds a run brings to their end. */
  ghost function Ended(w: Watch, beats: seq<Beat>): nat
    decreases |beats|
  {
    if beats == [] then 0
    else (if beats[0].EndRound? && w.stage == Asking([]) then 1 else 0) + Ended(Turn(w, beats[0]), beats[1..])
  }

  lemma EndingRests(w: Watch, b: Beat)
    ensures b.EndRound? && w.stage == Asking([]) ==> Turn(w, b).stage == Resting
    ensures Turn(w, b).stage.Asking? ==> w.stage.Asking? || Sweeps(w, b)
  {
  }

  /** Every round begun in the run and brought to its end has worked off its list. */
  lemma {:induction false} EndedRoundsAreSwept(w: Watch, beats: seq<Beat>)
    ensures Ended(w, beats) <= Swept(w, beats) + (if w.stage.Asking? then 1 else 0)
    decreases |beats|
  {
    if beats != [] {
      EndingRests(w, beats[0]);
      EndedRoundsAreSwept(Turn(w, beats[0]), beats[1..]);
    }
  }

  /** This many more lists, worked off to the end, take the order out. */
  predicate Owed(w: Watch, o: Id, end: Instant, lists: nat) {
    var ahead := Ahead(w.desk.db, end);
    o in ahead ==>
      match w.stage
      case Expiring(left) => lists >= 1 && (o in left || |ahead - IdSet(left)| <= LISTED * (lists - 1))
      case Stopped => lists >= 1
      case _ => |ahead| <= LISTED * lists
  }

  lemma OwedNothingIsOut(w: Watch, o: Id, end: Instant)
    requires Owed(w, o, end, 0)
    ensures o !in Ahead(w.desk.db, end)
  {
    var ahead := Ahead(w.desk.db, end);
    assert o in ahead ==> |ahead| > 0;
  }

  lemma CallKeepsOwed(w: Watch, next: Watch, o: Id, end: Instant, lists: nat)
    requires Owed(w, o, end, lists) && next.stage == w.stage && Ahead(next.desk.db, end) <= Ahead(w.desk.db, end)
    ensures Owed(next, o, end, lists)
  {
    var ahead, after := Ahead(w.desk.db, end), Ahead(next.desk.db, end);
    SmallerCount(after, ahead);
    if w.stage.Expiring? {
      SmallerCount(after - IdSet(w.stage.left), ahead - IdSet(w.stage.left));
    }
  }

  lemma StartKeepsOwed(w: Watch, ids: seq<Id>, o: Id, end: Instant, lists: nat)
    requires Owed(w, o, end, lists) && w.stage.Resting? && ListsEarliest(w.desk.db, ids, LISTED)
    ensures Owed(w.(stage := Expiring(ids)), o, end, lists)
  {
    if o in Ahead(w.desk.db, end) {
      assert |Ahead(w.desk.db, end)| > 0;
      if o !in ids {
        ListedOrBehind(w.desk.db, ids, o, end);
      }
    }
  }

  lemma ExpiryKeepsOwed(w: Watch, next: Watch, o: Id, end: Instant, lists: nat)
    requires Owed(w, o, end, lists) && w.stage.Expiring? && w.stage.left != []
    requires next.stage == Expiring(w.stage.left[1..])
    requires Ahead(next.desk.db, end) <= Ahead(w.desk.db, end) - {w.stage.left[0]}
    ensures Owed(next, o, end, lists)
  {
    var left, ahead, after := w.stage.left, Ahead(w.desk.db, end), Ahead(next.desk.db, end);
    assert left == [left[0]] + left[1..];
    SmallerCount(after - IdSet(left[1..]), ahead - IdSet(left));
  }

  lemma ExpireOneKeepsOwed(w: Watch, next: Watch, o: Id, end: Instant, lists: nat)
    requires Consistent(w.desk.db) && end <= w.desk.db.now && Owed(w, o, end, lists) && next == Turn(w, ExpireOne)
    requires next.stage != w.stage && !next.stage.Stopped?
    ensures Owed(next, o, end, lists)
  {
    TurnAddsNone(w, ExpireOne, end);
    ExpiryTakesOut(w.desk, w.stage.left[0], end);
    ExpiryKeepsOwed(w, next, o, end, lists);
  }

  /** Outside the expiries it is enough that nobody joins. */
  lemma FewerKeepOwed(w: Watch, next: Watch, o: Id, end: Instant, lists: nat)
    requires Owed(w, o, end, lists) && Ahead(next.desk.db, end) <= Ahead(w.desk.db, end)
    requires next.stage.Stopped? || !(w.stage.Expiring? || w.stage.Stopped? || next.stage.Expiring?)
    ensures Owed(next, o, end, lists)
  {
    var ahead := Ahead(w.desk.db, end);
    SmallerCount(Ahead(next.desk.db, end), ahead);
    assert o in ahead ==> |ahead| > 0;
  }

  /** Whatever a beat does to the stage. */
  lemma StageFollows(w: Watch, b: Beat, stage: Stage)
    requires stage == Turn(w, b).stage && stage != w.stage && !Sweeps(w, b)
    ensures stage.Stopped? || (b.StartRound? && w.stage.Resting? && ListsEarliest(w.desk.db, b.ids, LISTED) && stage == Expiring(b.ids))
            || b.ExpireOne? || !(w.stage.Expiring? || w.stage.Stopped? || stage.Expiring?)
  {
  }

  lemma TurnKeepsOwed(w: Watch, b: Beat, next: Watch, o: Id, end: Instant, lists: nat)
    requires Consistent(w.desk.db) && end <= w.desk.db.now && Owed(w, o, end, lists)
    requires next == Turn(w, b) && !Sweeps(w, b)
    ensures Owed(next, o, end, lists)
  {
    TurnAddsNone(w, b, end);
    if next.stage == w.stage {
      CallKeepsOwed(w, next, o, end, lists);
    } else {
      StageFollows(w, b, next.stage);
      if next.stage.Stopped? {
        FewerKeepOwed(w, next, o, end, lists);
      } else if b.StartRound? {
        StartKeepsOwed(w, b.ids, o, end, lists);
      } else if b.ExpireOne? {
        ExpireOneKeepsOwed(w, next, o, end, lists);
      } else {
        FewerKeepOwed(w, next, o, end, lists);
      }
    }
  }

  lemma TurnSweeps(w: Watch, b: Beat)
    requires Sweeps(w, b)
    ensures Turn(w, b) == w.(stage := Asking(b.ids))
  {
  }

  lemma SweepPays(w: Watch, next: Watch, o: Id, end: Instant, lists: nat)
    requires Owed(w, o, end, lists) && o in Ahead(w.desk.db, end) && w.stage == Expiring([])
    requires next.desk == w.desk && next.stage.Asking?
    ensures lists >= 1 && Owed(next, o, end, lists - 1)
  {
    var ahead := Ahead(w.desk.db, end);
    assert ahead - IdSet([]) == ahead;
  }

  /** A turn keeps what is owed; a list worked off pays one. */
  lemma TurnPays(w: Watch, b: Beat, o: Id, end: Instant, lists: nat)
    requires Consistent(w.desk.db) && end <= w.desk.db.now && Owed(w, o, end, lists) && o in Ahead(w.desk.db, end)
    ensures if Sweeps(w, b) then lists >= 1 && Owed(Turn(w, b), o, end, lists - 1) else Owed(Turn(w, b), o, end, lists)
  {
    if Sweeps(w, b) {
      TurnSweeps(w, b);
      SweepPays(w, Turn(w, b), o, end, lists);
    } else {
      TurnKeepsOwed(w, b, Turn(w, b), o, end, lists);
    }
  }

  lemma {:induction false} PaidIsOut(w: Watch, beats: seq<Beat>, o: Id, end: Instant, lists: nat)
    requires Consistent(w.desk.db) && end <= w.desk.db.now && Owed(w, o, end, lists) && Swept(w, beats) >= lists
    ensures o !in Ahead(TurnAll(w, beats).desk.db, end)
    decreases |beats|
  {
    if o !in Ahead(w.desk.db, end) {
      RunAddsNone(w, beats, end);
    } else if beats == [] {
      OwedNothingIsOut(w, o, end);
    } else {
      TurnPays(w, beats[0], o, end, lists);
      TurnKeepsTables(w, beats[0]);
      PaidIsOut(Turn(w, beats[0]), beats[1..], o, end, if Sweeps(w, beats[0]) then lists - 1 else lists);
    }
  }

  /** With k lapsed reservations that expired no later, this one is resolved once k / 500 + 1 lists have been worked off
      from their start, whatever happens in between; what is lapsed for the order then is a later reservation. */
  lemma LapsedReservationsDrain(w: Watch, beats: seq<Beat>, o: Id)
    requires Consistent(w.desk.db) && Expired(w.desk.db, o)
    requires var others := Ahead(w.desk.db, w.desk.db.orders[o].expires.value) - {o};
             Swept(w, beats) >= |others| / LISTED + 1 + (if w.stage.Expiring? then 1 else 0)
    ensures var after := TurnAll(w, beats).desk.db;
            Expired(after, o) ==> after.orders[o].expires.value > w.desk.db.orders[o].expires.value
  {
    var end := w.desk.db.orders[o].expires.value;
    var lists := |Ahead(w.desk.db, end) - {o}| / LISTED + 1 + (if w.stage.Expiring? then 1 else 0);
    if w.stage.Stopped? {
      StoppedSweepsNone(w, beats);
    }
    OwedToAll(w, o, end, |Ahead(w.desk.db, end) - {o}| / LISTED + 1);
    PaidIsOut(w, beats, o, end, lists);
  }

  lemma OwedToAll(w: Watch, o: Id, end: Instant, lists: nat)
    requires o in Ahead(w.desk.db, end) && |Ahead(w.desk.db, end) - {o}| < LISTED * lists
    ensures Owed(w, o, end, lists + (if w.stage.Expiring? then 1 else 0))
  {
    var ahead := Ahead(w.desk.db, end);
    assert ahead == (ahead - {o}) + {o};
    if w.stage.Expiring? {
      SmallerCount(ahead - IdSet(w.stage.left), ahead);
    }
  }

  /** The same in rounds that did not fail. */
  lemma RoundsDrain(w: Watch, beats: seq<Beat>, o: Id)
    requires Consistent(w.desk.db) && w.stage.Resting? && Expired(w.desk.db, o)
    requires Ended(w, beats) >= |Ahead(w.desk.db, w.desk.db.orders[o].expires.value) - {o}| / LISTED + 1
    ensures var after := TurnAll(w, beats).desk.db;
            Expired(after, o) ==> after.orders[o].expires.value > w.desk.db.orders[o].expires.value
  {
    EndedRoundsAreSwept(w, beats);
    LapsedReservationsDrain(w, beats, o);
  }
}
