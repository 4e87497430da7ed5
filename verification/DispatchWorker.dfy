/** The worker loops as schedulers of service calls: what a round of each does is a run of the dispatch machine, so that
    every property of runs holds of them: internal/dispatch/worker.go. */
module DispatchWorker {
  import opened Prelude
  import opened Database
  import opened Dispatch
  import opened Reservations
  import opened Recovery
  import opened RecoveryDrain
  import Calls = DispatchService

  class Worker {
    const service: Calls.Service
    var stage: Stage

    constructor (service: Calls.Service)
      ensures this.service == service && stage == Resting
    {
      this.service, stage := service, Resting;
    }

    ghost function State(): Watch
      reads this, service, service.tables, service.store
    {
      Watch(service.State(), stage)
    }

    /** One tick of the timeout worker: the earliest due tasks, one after the other, errors ignored. */
    method HandleDueTimeouts() returns (ghost steps: seq<Step>)
      requires service.Valid()
      modifies service`queue, service`timeouts, service.tables, service.store
      ensures service.Valid() && service.State() == DoAll(old(service.State()), steps)
      ensures |steps| <= 100 && forall i :: 0 <= i < |steps| ==> steps[i].HandleTimeout? && IsDue(old(service.State()), steps[i].task)
      ensures forall t :: IsDue(old(service.State()), t) ==>
                |steps| == 100 || exists i :: 0 <= i < |steps| && steps[i].task == t
    {
      var due := service.Due(100);
      steps := HandleEach(due);
    }

    method HandleEach(due: seq<Task>) returns (ghost steps: seq<Step>)
      requires service.Valid()
      requires forall i :: 0 <= i < |due| ==> IsDue(service.State(), due[i])
      requires forall i, j :: 0 <= i < j < |due| ==> due[i] != due[j]
      modifies service`queue, service`timeouts, service.tables, service.store
      ensures service.Valid() && service.State() == DoAll(old(service.State()), steps)
      ensures |steps| == |due| && forall i :: 0 <= i < |due| ==> steps[i].HandleTimeout? && steps[i].task == due[i]
    {
      steps := [];
      for n := 0 to |due|
        invariant service.Valid() && service.State() == DoAll(old(service.State()), steps)
        invariant |steps| == n && forall i :: 0 <= i < n ==> steps[i].HandleTimeout? && steps[i].task == due[i]
        invariant DueFrom(service.State(), due, n)
      {
        ghost var before := service.State();
        var _, offered := service.HandleOfferTimeout(due[n]);
        ghost var step := HandleTimeout(due[n], offered);
        DoOneMore(old(service.State()), steps, step);
        OthersStayDue(before, service.State(), due, n, offered);
        steps := steps + [step];
      }
    }

    // ----- recovery, one query or call at a time, so that anything can happen between two of them -----

    method StartRound()
      requires service.Valid() && stage.Resting?
      modifies this`stage
      ensures stage.Expiring? && State() == Turn(old(State()), Beat.StartRound(stage.left))
      ensures ListsEarliest(service.State().db, stage.left, LISTED)
    {
      var ids := service.tables.ListExpiredPriceConfirmations(LISTED);
      stage := Expiring(ids);
    }

    /** The turn of the next lapsed order: an error ends the loop. */
    method ExpireOne() returns (ok: bool)
      requires service.Valid() && stage.Expiring? && stage.left != []
      modifies this`stage, service`queue, service.tables, service.store
      ensures service.Valid() && State() == Turn(old(State()), Beat.ExpireOne) && ok == !stage.Stopped?
      ensures ok == !ExpireFails(old(service.State()), old(stage.left)[0])
    {
      ok := service.ExpireOrderPrice(stage.left[0]);
      stage := if ok then Expiring(stage.left[1..]) else Stopped;
    }

    method ListSearching()
      requires service.Valid() && stage == Expiring([])
      modifies this`stage
      ensures stage.Asking? && State() == Turn(old(State()), Beat.ListSearching(stage.left))
      ensures Lists(stage.left, SearchingOrders(service.State().db), LISTED)
    {
      var ids := service.tables.ListSearchingOrders(LISTED);
      stage := Asking(ids);
    }

    /** The turn of the next searching order: a dispatch flag passes over it, an error ends the loop. */
    method AskOne(begun: bool) returns (ok: bool)
      requires service.Valid() && stage.Asking? && stage.left != []
      modifies this`stage, service`queue, service.tables, service.store
      ensures service.Valid() && State() == Turn(old(State()), Beat.AskOne(begun)) && ok == !stage.Stopped?
      ensures ok == (begun ==> CanStartSearch(old(service.State()).db, old(stage.left)[0]))
    {
      ok := true;
      if begun {
        ok := service.EnqueueOrder(stage.left[0], None);
      }
      stage := if ok then Asking(stage.left[1..]) else Stopped;
    }

    method EndRound()
      requires stage == Asking([])
      modifies this`stage
      ensures stage == Resting && State() == Turn(old(State()), Beat.EndRound)
    {
      stage := Resting;
    }

    /** One round with nothing else in between. It stops on the first error, but in tidy tables there is none, and what
        is left lapsed is what it did not list. `flagged` are the orders whose dispatch flag is up. */
    method RecoverSearchingOrders(flagged: set<Id>) returns (ok: bool, ghost listed: seq<Id>, ghost beats: seq<Beat>)
      requires service.Valid() && stage.Resting?
      modifies this`stage, service`queue, service.tables, service.store
      ensures service.Valid() && Leads(old(State()), beats, State())
      ensures stage == (if ok then Resting else Stopped) && ListsEarliest(old(service.State()).db, listed, LISTED)
      ensures DeskTidy(old(service.State()).db) ==>
                ok && ExpiredOrders(service.State().db) == ExpiredOrders(old(service.State()).db) - IdSet(listed)
    {
      ghost var start := State();
      ok, listed, beats := Release(start);
      if ok {
        ok, beats := Ask(start, beats, flagged);
      }
      if DeskTidy(start.desk.db) {
        AloneNeverStops(start, beats);
      }
    }

    /** The first half of a round: lapsed reservations are listed and released. */
    method Release(ghost start: Watch) returns (ok: bool, ghost listed: seq<Id>, ghost beats: seq<Beat>)
      requires service.Valid() && stage.Resting? && State() == start
      modifies this`stage, service`queue, service.tables, service.store
      ensures service.Valid() && Leads(start, beats, State())
      ensures stage == (if ok then Expiring([]) else Stopped) && ListsEarliest(start.desk.db, listed, LISTED)
      ensures Consistent(start.desk.db) && ok ==>
                ExpiredOrders(service.State().db) == ExpiredOrders(start.desk.db) - IdSet(listed) && Consistent(service.State().db)
    {
      StartRound();
      listed := stage.left;
      LeadsOn(start, [], start, Beat.StartRound(listed), State());
      ok, beats := ExpireAll(start, [] + [Beat.StartRound(listed)]);
    }

    /** The second half: searching orders are listed and asked for again. */
    method Ask(ghost start: Watch, ghost before: seq<Beat>, flagged: set<Id>) returns (ok: bool, ghost beats: seq<Beat>)
      requires service.Valid() && stage == Expiring([]) && Leads(start, before, State())
      modifies this`stage, service`queue, service.tables, service.store
      ensures service.Valid() && Leads(start, beats, State())
      ensures stage == if ok then Resting else Stopped
      ensures ok ==> SameLapsed(old(service.State()).db, service.State().db)
    {
      ghost var was := State();
      ListSearching();
      LeadsOn(start, before, was, Beat.ListSearching(stage.left), State());
      ok, beats := AskAll(start, before + [Beat.ListSearching(stage.left)], flagged);
      if ok {
        was := State();
        EndRound();
        LeadsOn(start, beats, was, Beat.EndRound, State());
        beats := beats + [Beat.EndRound];
      }
    }

    method ExpireAll(ghost start: Watch, ghost before: seq<Beat>) returns (ok: bool, ghost beats: seq<Beat>)
      requires service.Valid() && stage.Expiring? && Leads(start, before, State())
      modifies this`stage, service`queue, service.tables, service.store
      ensures service.Valid() && Leads(start, beats, State())
      ensures stage == if ok then Expiring([]) else Stopped
      ensures Consistent(old(service.State()).db) && ok ==>
                ExpiredOrders(service.State().db) == LeftOver(old(service.State()).db, old(stage.left)) && Consistent(service.State().db)
    {
      beats := before;
      while stage.left != []
        invariant service.Valid() && stage.Expiring? && Leads(start, beats, State())
        invariant Consistent(old(service.State()).db) ==>
                    LeftOver(service.State().db, stage.left) == LeftOver(old(service.State()).db, old(stage.left))
                    && Consistent(service.State().db)
        decreases |stage.left|
      {
        ghost var was := State();
        ok := ExpireOne();
        LeadsOn(start, beats, was, Beat.ExpireOne, State());
        beats := beats + [Beat.ExpireOne];
        if !ok {
          return;
        }
        if Consistent(was.desk.db) {
          OwnExpiryKeepsLeftOver(was, State());
        }
      }
      assert LeftOver(service.State().db, []) == ExpiredOrders(service.State().db);
      return true, beats;
    }

    method AskAll(ghost start: Watch, ghost before: seq<Beat>, flagged: set<Id>) returns (ok: bool, ghost beats: seq<Beat>)
      requires service.Valid() && stage.Asking? && Leads(start, before, State())
      modifies this`stage, service`queue, service.tables, service.store
      ensures service.Valid() && Leads(start, beats, State())
      ensures stage == if ok then Asking([]) else Stopped
      ensures ok ==> SameLapsed(old(service.State()).db, service.State().db)
    {
      beats := before;
      while stage.left != []
        invariant service.Valid() && stage.Asking? && Leads(start, beats, State())
        invariant SameLapsed(old(service.State()).db, service.State().db)
        decreases |stage.left|
      {
        ghost var was := State();
        var begun := stage.left[0] !in flagged;
        ok := AskOne(begun);
        LeadsOn(start, beats, was, Beat.AskOne(begun), State());
        beats := beats + [Beat.AskOne(begun)];
        if !ok {
          return;
        }
        OwnRequestKeepsLapsed(old(service.State()).db, was, begun, State());
      }
      return true, beats;
    }
  }

  predicate DueFrom(s: Desk, due: seq<Task>, n: nat) {
    forall i :: n <= i < |due| ==> IsDue(s, due[i])
  }

  /** Handling one task leaves the time of every other task alone. */
  lemma OthersStayDue(s: Desk, after: Desk, due: seq<Task>, n: nat, offered: seq<Id>)
    requires n < |due| && DueFrom(s, due, n) && after == Do(s, HandleTimeout(due[n], offered))
    requires forall i, j :: 0 <= i < j < |due| ==> due[i] != due[j]
    ensures DueFrom(after, due, n + 1)
  {
  }
}
