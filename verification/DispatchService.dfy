/** The dispatch service as it runs: each method works through the repositories, the offer store, the queue and the
    timeout set in the order of internal/dispatch/service.go, and leaves them as its step in `Dispatch` says. */
module DispatchService {
  import opened Prelude
  import opened Orders
  import opened TripPricing
  import opened Database
  import opened OfferStore
  import opened Dispatch
  import opened DispatchOutcomes
  import Tables = OrderTables

  /** The two loops that merge lists of drivers, each id once. */
  method AppendUniqueDriverIDs(existing: seq<Id>, values: seq<Id>) returns (result: seq<Id>)
    ensures result == Deduplicated(existing + values)
  {
    if |existing| == 0 && |values| == 0 {
      return [];
    }
    ghost var all := existing + values;
    var seen: set<Id> := {};
    result := [];
    result, seen := AppendUnseen(result, seen, existing, all, 0);
    result, seen := AppendUnseen(result, seen, values, all, |existing|);
    assert all[..|all|] == all;
  }

  method AppendUnseen(before: seq<Id>, known: set<Id>, ids: seq<Id>, ghost all: seq<Id>, ghost start: nat)
      returns (result: seq<Id>, seen: set<Id>)
    requires MergedSoFar(before, known, all, start) && start + |ids| <= |all| && all[start..start + |ids|] == ids
    ensures MergedSoFar(result, seen, all, start + |ids|)
  {
    result, seen := before, known;
    for n := 0 to |ids|
      invariant MergedSoFar(result, seen, all, start + n)
    {
      OneMore(all, start + n);
      assert all[start + n] == ids[n];
      if ids[n] !in seen {
        seen := seen + {ids[n]};
        result := result + [ids[n]];
      }
    }
  }

  ghost predicate MergedSoFar(result: seq<Id>, seen: set<Id>, all: seq<Id>, n: nat) {
    n <= |all| && result == Deduplicated(all[..n]) && forall d :: d in seen <==> d in result
  }

  lemma OneMore(ids: seq<Id>, n: nat)
    requires n < |ids|
    ensures var before := Deduplicated(ids[..n]);
            Deduplicated(ids[..n + 1]) == if ids[n] in before then before else before + [ids[n]]
  {
    assert ids[..n + 1][..n] == ids[..n];
  }

  class Service {
    const tables: Tables.OrderTables
    const store: OfferStore
    const config: NormalConfig
    var queue: seq<Task>
    var timeouts: map<Task, Score>

    constructor (tables: Tables.OrderTables, store: OfferStore, config: Config)
      requires tables.now == store.now && KeyedById(tables.tariffs)
      ensures Valid() && this.tables == tables && this.store == store
      ensures State() == Desk(tables.State(), store.State(), [], map[], Normalize(config))
    {
      this.tables, this.store, this.config := tables, store, Normalize(config);
      queue, timeouts := [], map[];
    }

    ghost predicate Valid()
      reads this, tables, store
    {
      tables.now == store.now && KeyedById(tables.tariffs)
    }

    ghost function State(): Desk
      reads this, tables, store
    {
      Desk(tables.State(), store.State(), queue, timeouts, config)
    }

    method Publish(task: Task)
      modifies this`queue
      ensures State() == Dispatch.Publish(old(State()), task)
    {
      queue := queue + [task];
    }

    method Consume() returns (task: Option<Task>)
      modifies this`queue
      ensures task == if old(queue) == [] then None else Some(old(queue)[0])
      ensures queue == if old(queue) == [] then [] else old(queue)[1..]
    {
      if queue == [] {
        return None;
      }
      task := Some(queue[0]);
      queue := queue[1..];
    }

    method Schedule(task: Task, after: nat)
      modifies this`timeouts
      ensures State() == Dispatch.Schedule(old(State()), task, after)
    {
      timeouts := timeouts[task := Milli(tables.now + after)];
    }

    method EnqueueOrder(o: Id, taskConfig: Option<Config>) returns (ok: bool)
      requires Valid()
      modifies this`queue, tables`orders
      ensures Valid() && State() == Do(old(State()), Enqueue(o, taskConfig)) && ok == CanStartSearch(old(tables.State()), o)
    {
      ok := tables.MarkOrderSearching(o);
      if ok {
        Publish(Task(o, 0, tables.now, [], taskConfig));
      }
    }

    /** Filters the drivers that location, car and class admit, nearest first, up to the limit. */
    method FindNearestOnlineDrivers(row: Order, nearby: seq<Id>, exclude: seq<Id>, limit: nat) returns (found: seq<Id>)
      ensures found == Nearest(tables.State(), row, nearby, exclude, limit)
      ensures NearestFirst(tables.State(), row, nearby, exclude, limit, found)
    {
      found := [];
      var all := [];
      for n := 0 to |nearby|
        invariant all == Candidates(tables.State(), row, nearby[..n], exclude)
        invariant found == AtMost(all, limit)
      {
        assert nearby[..n + 1][..n] == nearby[..n];
        var d := nearby[n];
        if d !in exclude && Searchable(Db(tables.now, tables.orders, tables.drivers, tables.tariffs), row, d) {
          all := all + [d];
          if |found| < limit {
            found := found + [d];
          }
        }
      }
      assert nearby[..|nearby|] == nearby;
      NearestAreFound(tables.State(), row, nearby, exclude, limit);
    }

    method OfferDrivers(o: Id, attempt: int, radius: int, candidates: seq<Id>, c: NormalConfig)
      requires Valid()
      modifies store
      ensures Valid() && State() == old(State()).(keys := OfferAll(old(store.State()), tables.now, o, attempt, radius, candidates, c))
    {
      for n := 0 to |candidates|
        invariant store.now == tables.now
        invariant store.State() == OfferAll(old(store.State()), tables.now, o, attempt, radius, candidates[..n], c)
      {
        assert candidates[..n + 1][..n] == candidates[..n];
        var d := candidates[n];
        var existing := store.GetOffer(o, d);
        if existing.None? || store.now >= existing.value.expiresAt {
          var offer := Offer(o, d, attempt, radius, store.now + c.offerTtl, store.now, c.lockTtl / 1_000_000);
          store.SaveOffer(offer, c.offerTtl);
        }
      }
      assert candidates[..|candidates|] == candidates;
    }

    method ProcessTask(task: Task, nearby: seq<Id>) returns (ok: bool)
      requires Valid()
      modifies this`timeouts, tables`orders, store
      ensures Valid() && State() == ProcessOne(old(State()), task, nearby)
      ensures ok <==> Processable(old(State()), task, nearby)
    {
      if task.order !in tables.orders {
        return false;
      }
      if Settled(tables.orders[task.order].status) {
        return false;
      }
      if tables.orders[task.order].status != Searching {
        var started := tables.MarkOrderSearching(task.order);
        if !started {
          return false;
        }
      }
      ok := SearchDrivers(task, nearby);
    }

    method SearchDrivers(task: Task, nearby: seq<Id>) returns (ok: bool)
      requires Valid() && task.order in tables.orders
      modifies this`timeouts, tables`orders, store
      ensures Valid() && State() == Search(old(State()), task, nearby)
      ensures ok <==> (Exhausted(old(State()), task, nearby) ==> CanGiveUp(old(tables.State()), task.order))
    {
      var c := ConfigFor(config, task);
      var row := tables.orders[task.order];
      var exclude := AppendUniqueDriverIDs(task.exclude, row.declined);
      var listed := task.(exclude := exclude);
      var radius := RadiusFor(c, task.attempt);
      if radius.None? {
        ok := tables.FailOrder(task.order);
        return;
      }
      var found := FindNearestOnlineDrivers(row, nearby, exclude, c.maxDrivers);
      ok := OfferFound(listed, radius.value, found, c);
    }

    /** Offers the order to those found and sets the timer, or fails it when nobody was found and no radius is left. */
    method OfferFound(listed: Task, radius: int, found: seq<Id>, c: NormalConfig) returns (ok: bool)
      requires Valid()
      modifies this`timeouts, tables`orders, store
      ensures Valid()
      ensures if found == [] && RadiusFor(c, listed.attempt + 1).None? then
                State() == old(State()).(db := GiveUp(old(tables.State()), listed.order)) && ok == CanGiveUp(old(tables.State()), listed.order)
              else
                ok && State() == Dispatch.Schedule(
                  old(State()).(keys := OfferAll(old(store.State()), tables.now, listed.order, listed.attempt, radius, found, c)), listed, c.offerTtl)
    {
      if found == [] && RadiusFor(c, listed.attempt + 1).None? {
        ok := tables.FailOrder(listed.order);
        return;
      }
      OfferDrivers(listed.order, listed.attempt, radius, found, c);
      Schedule(listed, c.offerTtl);
      return true;
    }

    /** One round of the dispatch worker. */
    method Work(nearby: seq<Id>)
      requires Valid()
      modifies this`queue, this`timeouts, tables`orders, store
      ensures Valid() && State() == Do(old(State()), Step.ProcessTask(nearby))
    {
      var task := Consume();
      if task.Some? {
        var _ := ProcessTask(task.value, nearby);
      }
    }

    method ReleasePriceConfirmation(o: Id, d: Id) returns (ok: bool)
      requires Valid()
      modifies this`queue, tables`orders, tables`drivers
      ensures Valid() && State() == ReleasePrice(old(State()), o, d) && ok == CanRelease(old(tables.State()), o, d)
    {
      ok := tables.ReleaseDriverReservation(o, d);
      if ok {
        Publish(Task(o, 0, tables.now, [d], None));
      }
    }

    method DeclineOrderPrice(o: Id, passenger: Id) returns (ok: bool)
      requires Valid()
      modifies this`queue, tables`orders, tables`drivers
      ensures Valid() && State() == Do(old(State()), Step.DeclineOrderPrice(o, passenger))
      ensures ok <==> CanDecline(old(State()), o, passenger)
                      && CanRelease(old(tables.State()), o, old(tables.orders)[o].driver.value)
    {
      if o !in tables.orders {
        return false;
      }
      var row := tables.orders[o];
      if row.passenger != passenger || row.driver.None? || row.confirmation != Some(Pending) {
        return false;
      }
      ok := ReleasePriceConfirmation(o, row.driver.value);
    }

    method ExpireOrderPrice(o: Id) returns (ok: bool)
      requires Valid()
      modifies this`queue, tables`orders, tables`drivers
      ensures Valid() && State() == Do(old(State()), Step.ExpireOrderPrice(o)) && ok == !ExpireFails(old(State()), o)
    {
      if o !in tables.orders {
        return false;
      }
      var row := tables.orders[o];
      if row.confirmation == Some(Pending) && row.driver.Some? && row.expires.Some? && !(tables.now < row.expires.value) {
        ok := ReleasePriceConfirmation(o, row.driver.value);
        return;
      }
      return true;
    }

    /** The passenger learns that the price is agreed exactly when the order now stands confirmed and assigned for him. */
    method ConfirmOrderPrice(o: Id, passenger: Id) returns (ok: bool)
      requires Valid()
      modifies tables`orders
      ensures Valid() && State() == Do(old(State()), Step.ConfirmOrderPrice(o, passenger))
      ensures ok <==> o in tables.orders && var row := tables.orders[o];
        row.passenger == passenger && row.driver.Some? && row.status == DriverAssigned && row.confirmation == Some(Confirmed)
    {
      var confirmed := tables.ConfirmDriverPrice(o, passenger);
      if o !in tables.orders {
        return false;
      }
      var row := tables.orders[o];
      if row.passenger != passenger || row.driver.None? || row.status != DriverAssigned {
        return false;
      }
      if !confirmed {
        return row.confirmation == Some(Confirmed);
      }
      return true;
    }

    method RejectOffer(o: Id, d: Id) returns (ok: bool)
      requires Valid()
      modifies store
      ensures Valid() && State() == Do(old(State()), Step.RejectOffer(o, d)) && ok == OfferOpen(old(State()), o, d)
    {
      var offer := store.GetOffer(o, d);
      if offer.None? || store.now > offer.value.expiresAt {
        return false;
      }
      store.RemoveDriverOffer(o, d);
      return true;
    }

    method AcceptOffer(o: Id, d: Id, eligible: bool) returns (ok: bool)
      requires Valid()
      modifies this`timeouts, tables`orders, tables`drivers, store
      ensures Valid() && State() == Do(old(State()), Step.AcceptOffer(o, d, eligible))
      ensures ok <==> CanAccept(old(State()), o, d, eligible)
      ensures ok ==> o in tables.orders && AtFare(tables.orders[o], d)
    {
      var offer := store.GetOffer(o, d);
      if offer.None? || store.now > offer.value.expiresAt {
        return false;
      }
      var bid := PriceBid(o, d, eligible);
      if bid.None? {
        return false;
      }
      ok := Reserve(bid.value);
      if ok {
        AcceptedAtFare(old(State()), o, d, eligible);
      }
    }

    /** The fare of an offer that is open, and its price. */
    method PriceBid(o: Id, d: Id, eligible: bool) returns (bid: Option<Bid>)
      requires Valid() && OfferOpen(State(), o, d)
      ensures bid == AcceptBid(State(), o, d, eligible)
    {
      var fare := tables.GetCandidateFare(o, d);
      if fare.None? {
        return None;
      }
      var price := CalculateTripPrice(fare.value.tariff.rates, fare.value.route.distance, fare.value.route.duration);
      if price.Err? || price.value <= 0 || o !in tables.orders {
        return None;
      }
      var needsConfirmation := !tables.orders[o].byPark;
      return Some(Bid(o, d, fare.value, price.value, tables.now + config.confirmationTtl, needsConfirmation, eligible));
    }

    method Reserve(bid: Bid) returns (ok: bool)
      requires Valid()
      modifies this`timeouts, tables`orders, tables`drivers, store
      ensures Valid() && State() == Taken(old(State()), bid) && ok == CanAssign(old(tables.State()), bid)
    {
      ok := tables.AssignDriver(bid);
      if !ok {
        return;
      }
      if bid.needsConfirmation {
        Schedule(Task(bid.order, -1, tables.now, [bid.driver], None), config.confirmationTtl);
      }
      CloseOffers(bid.order, bid.driver);
    }

    method CloseOffers(o: Id, d: Id)
      requires Valid()
      modifies tables`drivers, store
      ensures Valid() && tables.State() == Apply(old(tables.State()), MarkBusy(d))
      ensures store.State() == Clear(old(store.State()), store.now, o)
    {
      var _ := tables.MarkDriverBusy(d);
      store.RemoveOffers(o);
    }

    method ScheduleNextAttempt(task: Task, offered: seq<Id>) returns (ok: bool)
      requires Valid()
      modifies this`queue, tables`orders
      ensures Valid() && State() == Retry(old(State()), task, offered)
      ensures ok <==> (RadiusFor(ConfigFor(config, task), task.attempt + 1).None? ==> CanGiveUp(old(tables.State()), task.order))
    {
      var exclude := AppendUniqueDriverIDs(task.exclude, offered);
      var next := Task(task.order, task.attempt + 1, tables.now, exclude, task.config);
      if RadiusFor(ConfigFor(config, task), next.attempt).None? {
        ok := tables.FailOrder(task.order);
        return;
      }
      Publish(next);
      return true;
    }

    /** Of the tasks that are due, the earliest, at most so many. */
    method Due(limit: nat) returns (due: seq<Task>)
      requires Valid()
      ensures |due| <= limit && forall i :: 0 <= i < |due| ==> IsDue(State(), due[i])
      ensures forall i, j :: 0 <= i < j < |due| ==> due[i] != due[j] && NotLater(timeouts, due[i], due[j])
      ensures forall t :: IsDue(State(), t) && t !in due ==>
                |due| == limit && forall i :: 0 <= i < |due| ==> NotLater(timeouts, due[i], t)
    {
      due := [];
      var rest := set t | t in timeouts && timeouts[t] <= Milli(tables.now);
      while |due| < limit && rest != {}
        invariant |due| <= limit
        invariant forall t :: IsDue(State(), t) <==> t in rest || t in due
        invariant forall i :: 0 <= i < |due| ==> due[i] in timeouts && due[i] !in rest
        invariant forall i, j :: 0 <= i < j < |due| ==> due[i] != due[j] && NotLater(timeouts, due[i], due[j])
        invariant forall i, t :: 0 <= i < |due| && t in rest ==> NotLater(timeouts, due[i], t)
        decreases rest
      {
        var first := Earliest(rest);
        due := due + [first];
        rest := rest - {first};
      }
    }

    method Earliest(tasks: set<Task>) returns (first: Task)
      requires tasks != {} && tasks <= timeouts.Keys
      ensures first in tasks && forall t :: t in tasks ==> timeouts[first] <= timeouts[t]
    {
      first :| first in tasks;
      var rest := tasks - {first};
      while rest != {}
        invariant rest <= tasks && first in tasks
        invariant forall t :: t in tasks && t !in rest ==> timeouts[first] <= timeouts[t]
        decreases rest
      {
        var t :| t in rest;
        rest := rest - {t};
        if timeouts[t] < timeouts[first] {
          first := t;
        }
      }
    }

    /** Handles one task, and says whether it went well and which drivers the order had offered. */
    method HandleOfferTimeout(task: Task) returns (ok: bool, offered: seq<Id>)
      requires Valid()
      modifies this`queue, this`timeouts, tables`orders, tables`drivers, store
      ensures Valid() && ListsAll(offered, Members(old(store.byOrder), store.now, task.order))
      ensures State() == Handle(old(State()), task, offered)
      ensures ok <==> HandlesWell(old(State()), task)
    {
      offered := store.ListOfferedDriverIDs(task.order);
      if task.attempt == -1 {
        ok := ExpirePriceConfirmation(task);
        return;
      }
      if task.order !in tables.orders {
        return false, offered;
      }
      if tables.orders[task.order].status != Searching {
        timeouts := timeouts - {task};
        return true, offered;
      }
      store.RemoveOffers(task.order);
      timeouts := timeouts - {task};
      ok := ScheduleNextAttempt(task, offered);
    }

    method ExpirePriceConfirmation(task: Task) returns (ok: bool)
      requires Valid() && task.attempt == -1
      modifies this`queue, this`timeouts, tables`orders, tables`drivers
      ensures Valid() && State() == Handle(old(State()), task, []) && ok == HandlesWell(old(State()), task)
    {
      ok := ExpireOrderPrice(task.order);
      if ok {
        timeouts := timeouts - {task};
      }
    }

    method StopDispatch(o: Id)
      requires Valid()
      modifies store
      ensures Valid() && State() == Do(old(State()), Step.StopDispatch(o))
    {
      store.RemoveOffers(o);
    }
  }
}
