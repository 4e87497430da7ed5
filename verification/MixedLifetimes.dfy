/** What happens when offers of one order, or to one driver, get two lifetimes: runs of the dispatch machine from its
    opening, and with them the exact conditions for dispatch to end and for released drivers to stay away. */
module MixedLifetimes {
  import opened Prelude
  import opened Orders
  import opened Database
  import opened Reservations
  import opened OfferStore
  import opened Dispatch
  import opened DispatchSafety
  import opened City
  import opened DispatchTermination
  import DispatchProgress

  // ----- two requests, two offers, and a wait -----

  lemma NoOtherOffer(o: Id, d: Id, c: NormalConfig, p: Id, e: Id)
    requires o != p || d != e
    ensures Find(Save(NO_KEYS, 0, FirstOffer(o, d, 0, c), c.offerTtl), 0, p, e).None?
  {
  }

  /** Two orders, or one order twice, were requested with these configurations and offered to these drivers. */
  ghost predicate TwiceOffered(s: Desk, service: NormalConfig, p: Id, first: Option<Config>, d: Id,
                               q: Id, second: Option<Config>, e: Id) {
    var c, k := TaskConfig(service, first), TaskConfig(service, second);
    && Idling(s) && s.config == service
    && p in s.db.orders && s.db.orders[p].status == Searching && q in s.db.orders && s.db.orders[q].status == Searching
    && s.keys == Save(Save(NO_KEYS, 0, FirstOffer(p, d, 0, c), c.offerTtl), 0, FirstOffer(q, e, 0, k), k.offerTtl)
  }

  /** A run from the opening gets there. */
  lemma TwoOffered(service: NormalConfig, p: Id, first: Option<Config>, d: Id, q: Id, second: Option<Config>, e: Id,
                   allowed: set<Option<Config>>) returns (steps: seq<Step>)
    requires p < 2 && d < 2 && q < 2 && e < 2 && (p != q || d != e)
    requires (p == 0 ==> first in allowed) && (q == 0 ==> second in allowed)
    ensures AllPass(Opening(service), steps, allowed)
    ensures TwiceOffered(DoAll(Opening(service), steps), service, p, first, d, q, second, e)
    ensures DoAll(Opening(service), steps).db.now == 0
  {
    steps := OnceOffered(service, p, first, d, allowed);
    OnceRequestable(DoAll(Opening(service), steps), service, p, first, d, q, second, e, allowed);
    steps := Requested(service, steps, q, second, e, allowed);
    MadeTwice(DoAll(Opening(service), steps), service, p, first, d, q, second, e);
  }

  lemma OnceRequestable(s: Desk, service: NormalConfig, p: Id, first: Option<Config>, d: Id, q: Id, second: Option<Config>, e: Id,
                        allowed: set<Option<Config>>)
    requires p < 2 && q < 2 && e < 2 && (p != q || d != e) && (q == 0 ==> second in allowed)
    requires Idling(s) && s.db == StartSearch(READY, p)
    requires var c := TaskConfig(service, first);
             s.keys == Save(NO_KEYS, 0, FirstOffer(p, d, 0, c), c.offerTtl)
    ensures Requestable(s, q, second, e, allowed)
  {
    NoOtherOffer(p, d, TaskConfig(service, first), q, e);
    SearchedParks(p);
    assert e in WORKING;
  }

  lemma MadeTwice(s: Desk, service: NormalConfig, p: Id, first: Option<Config>, d: Id, q: Id, second: Option<Config>, e: Id)
    requires p < 2 && q < 2 && Idling(s) && s.config == service && s.db == StartSearch(StartSearch(READY, p), q)
    requires var c, k := TaskConfig(service, first), TaskConfig(service, second);
             s.keys == Save(Save(NO_KEYS, 0, FirstOffer(p, d, 0, c), c.offerTtl), 0, FirstOffer(q, e, 0, k), k.offerTtl)
    ensures TwiceOffered(s, service, p, first, d, q, second, e) && s.db.now == 0
  {
    BothSearch(p, q);
  }

  lemma OnceOffered(service: NormalConfig, p: Id, first: Option<Config>, d: Id, allowed: set<Option<Config>>) returns (steps: seq<Step>)
    requires p < 2 && d < 2 && (p == 0 ==> first in allowed)
    ensures AllPass(Opening(service), steps, allowed)
    ensures var s := DoAll(Opening(service), steps);
            var c := TaskConfig(service, first);
            && Idling(s) && s.config == service && s.db == StartSearch(READY, p)
            && s.keys == Save(NO_KEYS, 0, FirstOffer(p, d, 0, c), c.offerTtl)
  {
    steps := Prepared(service);
    OutsidePasses(Opening(service), steps, allowed);
    ReadyIdles(service);
    steps := Requested(service, steps, p, first, d, allowed);
  }

  lemma SearchedParks(p: Id)
    requires p < 2
    ensures forall q: Id :: q < 2 ==>
              q in StartSearch(READY, p).orders && StartSearch(READY, p).orders[q].byPark == (q == 1) && StartSearch(READY, p).now == 0
  {
  }

  lemma BothSearch(p: Id, q: Id)
    requires p < 2 && q < 2
    ensures var db := StartSearch(StartSearch(READY, p), q);
            && db.now == 0 && p in db.orders && q in db.orders
            && db.orders[p].status == Searching && db.orders[q].status == Searching
  {
  }

  /** And then time passes. */
  lemma TwoRequests(service: NormalConfig, p: Id, first: Option<Config>, d: Id, q: Id, second: Option<Config>, e: Id,
                    wait: Instant, allowed: set<Option<Config>>) returns (steps: seq<Step>)
    requires p < 2 && d < 2 && q < 2 && e < 2 && (p != q || d != e)
    requires (p == 0 ==> first in allowed) && (q == 0 ==> second in allowed)
    ensures AllPass(Opening(service), steps, allowed)
    ensures TwiceOffered(DoAll(Opening(service), steps), service, p, first, d, q, second, e)
    ensures DoAll(Opening(service), steps).db.now == wait
  {
    var start := Opening(service);
    steps := TwoOffered(service, p, first, d, q, second, e, allowed);
    var s := DoAll(start, steps);
    Waited(service, steps, s, wait, allowed);
    StillOffered(s, wait, service, p, first, d, q, second, e);
    steps := steps + [Outside(Tick(wait))];
  }

  lemma StillOffered(s: Desk, wait: Instant, service: NormalConfig, p: Id, first: Option<Config>, d: Id,
                     q: Id, second: Option<Config>, e: Id)
    requires TwiceOffered(s, service, p, first, d, q, second, e)
    ensures TwiceOffered(s.(db := s.db.(now := wait)), service, p, first, d, q, second, e)
  {
  }

  // ----- the program as it is: a driver's list misses a live offer -----

  lemma TwoOffersOneDriver(first: Offer, long: Lifetime, second: Offer, short: Lifetime)
    requires short < long && first.driver == second.driver && first.order != second.order
    ensures var keys := Save(Save(NO_KEYS, 0, first, long), 0, second, short);
            Find(keys, short, first.order, first.driver) == Some(first) && Members(keys.byDriver, short, first.driver) == {}
  {
  }

  /** A park that offers longer than the service does, a passenger's order offered to the same driver, and the service's
      lifetime later the driver's list is empty, though the offer of the park order is still open to him. */
  lemma DriverListMissesAnOffer(service: NormalConfig, c: Config) returns (steps: seq<Step>)
    requires Normalize(c).offerTtl > service.offerTtl
    ensures AllPass(Opening(service), steps, {None})
    ensures var s := DoAll(Opening(service), steps);
            && 1 in s.db.orders && s.db.orders[1].byPark && s.db.orders[1].status == Searching
            && OfferOpen(s, 1, 0) && Members(s.keys.byDriver, s.db.now, 0) == {}
  {
    steps := TwoRequests(service, 1, Some(c), 0, 0, None, 0, service.offerTtl, {None});
    var long := Normalize(c);
    TwoOffersOneDriver(FirstOffer(1, 0, 0, long), long.offerTtl, FirstOffer(0, 0, 0, service), service.offerTtl);
  }

  // ----- two lifetimes for one order that asks for the price: no end, and no staying away -----

  /** The driver can take an order that asks for the price, with an offer that the order's index does not list. */
  ghost predicate Unlisted(s: Desk, o: Id, d: Id) {
    && Consistent(s.db) && CanAccept(s, o, d, true) && !s.db.orders[o].byPark
    && d !in Members(s.keys.byOrder, s.db.now, o)
  }

  /** A passenger's order requested twice, with two lifetimes, gets there. */
  lemma UnlistedIsReached(service: NormalConfig, c: Config) returns (steps: seq<Step>)
    requires Normalize(c).offerTtl != service.offerTtl
    ensures AllPass(Opening(service), steps, {None, Some(c)})
    ensures Unlisted(DoAll(Opening(service), steps), 0, 0)
  {
    if Normalize(c).offerTtl > service.offerTtl {
      steps := LongerFirst(service, Some(c), None, {None, Some(c)});
    } else {
      steps := LongerFirst(service, None, Some(c), {None, Some(c)});
    }
  }

  /** Requested first with the longer lifetime and then with the shorter one. */
  lemma LongerFirst(service: NormalConfig, first: Option<Config>, second: Option<Config>, allowed: set<Option<Config>>)
      returns (steps: seq<Step>)
    requires TaskConfig(service, first).offerTtl > TaskConfig(service, second).offerTtl && first in allowed && second in allowed
    ensures AllPass(Opening(service), steps, allowed)
    ensures Unlisted(DoAll(Opening(service), steps), 0, 0)
  {
    steps := TwoRequests(service, 0, first, 0, 0, second, 1, TaskConfig(service, second).offerTtl, allowed);
    DispatchProgress.RunRemembers(Opening(service), steps);
    TwiceOfferedIsUnlisted(DoAll(Opening(service), steps), service, first, second);
  }

  lemma TwiceOfferedIsUnlisted(s: Desk, service: NormalConfig, first: Option<Config>, second: Option<Config>)
    requires TwiceOffered(s, service, 0, first, 0, 0, second, 1) && Consistent(s.db)
    requires TaskConfig(service, first).offerTtl > TaskConfig(service, second).offerTtl == s.db.now
    ensures Unlisted(s, 0, 0)
  {
    var c, k := TaskConfig(service, first), TaskConfig(service, second);
    MixedLifetimesLeaveAnOffer(c.offerTtl, k.offerTtl, FirstOffer(0, 0, 0, c), FirstOffer(0, 1, 0, k));
    FirstSurvives(FirstOffer(0, 0, 0, c), c.offerTtl, FirstOffer(0, 1, 0, k), k.offerTtl);
    IdlingDriverCanAccept(s, 0, 0);
  }

  lemma FirstSurvives(first: Offer, long: Lifetime, second: Offer, short: Lifetime)
    requires short < long && first.order == second.order && first.driver != second.driver
    ensures Find(Save(Save(NO_KEYS, 0, first, long), 0, second, short), short, first.order, first.driver) == Some(first)
  {
  }

  lemma StatusesDiffer(s: Desk, next: Desk, o: Id)
    requires o in s.db.orders && o in next.db.orders && s.db.orders[o].status != next.db.orders[o].status
    ensures s != next
  {
  }

  lemma AcceptedIsAssigned(s: Desk, o: Id, d: Id)
    requires CanAccept(s, o, d, true)
    ensures var asked := Accept(s, o, d, true);
            && o in asked.db.orders && asked.db.orders[o].status == DriverAssigned
            && s.db.orders[o].status == Searching
  {
  }

  /** Both steps of a round have an effect. */
  lemma RoundIsEffective(s: Desk, o: Id, d: Id, asked: Desk, again: Desk)
    requires Unlisted(s, o, d) && asked == Accept(s, o, d, true) && again == Refused(s, o, d, true)
    ensures asked != s && again != asked
  {
    RefusalLeavesTables(s, o, d, true);
    AcceptedIsAssigned(s, o, d);
    StatusesDiffer(s, asked, o);
    StatusesDiffer(asked, again, o);
  }

  lemma RoundKeepsTables(s: Desk, o: Id, d: Id, asked: Desk, again: Desk)
    requires Consistent(s.db) && o in s.db.orders
    requires asked == Do(s, AcceptOffer(o, d, true)) && again == Do(asked, DeclineOrderPrice(o, s.db.orders[o].passenger))
    ensures Consistent(again.db)
  {
    DispatchProgress.StepKeepsTables(s, AcceptOffer(o, d, true));
    DispatchProgress.StepKeepsTables(asked, DeclineOrderPrice(o, s.db.orders[o].passenger));
  }

  lemma RoundSteps(s: Desk, o: Id, d: Id)
    requires o in s.db.orders
    ensures Do(s, AcceptOffer(o, d, true)) == Accept(s, o, d, true)
    ensures Do(Do(s, AcceptOffer(o, d, true)), DeclineOrderPrice(o, s.db.orders[o].passenger)) == Refused(s, o, d, true)
  {
  }

  lemma RoundComesBack(s: Desk, o: Id, d: Id)
    requires Unlisted(s, o, d)
    ensures Unlisted(Refused(s, o, d, true), o, d)
  {
    RoundSteps(s, o, d);
    RoundKeepsTables(s, o, d, Accept(s, o, d, true), Refused(s, o, d, true));
    UnlistedOfferNeverEnds(s, o, d, true);
  }

  lemma OneStep(s: Desk, steps: seq<Step>, next: Desk)
    requires steps != [] && next == Do(s, steps[0]) && Effective(s, steps[0])
    ensures EffectiveSteps(s, steps) == 1 + EffectiveSteps(next, steps[1..])
  {
  }

  lemma TwoSteps(s: Desk, steps: seq<Step>, middle: Desk, next: Desk)
    requires |steps| >= 2 && middle == Do(s, steps[0]) && next == Do(middle, steps[1])
    requires Effective(s, steps[0]) && Effective(middle, steps[1])
    ensures EffectiveSteps(s, steps) == 2 + EffectiveSteps(next, steps[2..])
  {
    OneStep(s, steps, middle);
    OneStep(middle, steps[1..], next);
    assert steps[1..][1..] == steps[2..];
  }

  /** Two effective calls lead from one desk to another. */
  ghost predicate TwoCalls(s: Desk, accept: Step, decline: Step, again: Desk) {
    && ClosedStep(accept) && ClosedStep(decline)
    && forall rest :: EffectiveSteps(s, [accept, decline] + rest) == 2 + EffectiveSteps(again, rest)
  }

  lemma RoundIsTwoCalls(s: Desk, o: Id, d: Id, asked: Desk, again: Desk)
    requires Unlisted(s, o, d) && asked == Accept(s, o, d, true) && again == Refused(s, o, d, true)
    ensures TwoCalls(s, AcceptOffer(o, d, true), DeclineOrderPrice(o, s.db.orders[o].passenger), again)
  {
    RoundSteps(s, o, d);
    RoundIsEffective(s, o, d, asked, again);
    AnyRestCounts(s, AcceptOffer(o, d, true), DeclineOrderPrice(o, s.db.orders[o].passenger), asked, again);
  }

  lemma AnyRestCounts(s: Desk, accept: Step, decline: Step, asked: Desk, again: Desk)
    requires asked == Do(s, accept) && again == Do(asked, decline) && Effective(s, accept) && Effective(asked, decline)
    ensures forall rest :: EffectiveSteps(s, [accept, decline] + rest) == 2 + EffectiveSteps(again, rest)
  {
    forall rest
      ensures EffectiveSteps(s, [accept, decline] + rest) == 2 + EffectiveSteps(again, rest)
    {
      var steps := [accept, decline] + rest;
      assert steps[2..] == rest;
      TwoSteps(s, steps, asked, again);
    }
  }

  /** After an acceptance and a refusal a run can go on as before. */
  lemma OneRound(s: Desk, o: Id, d: Id) returns (accept: Step, decline: Step, again: Desk)
    requires Unlisted(s, o, d)
    ensures Unlisted(again, o, d) && TwoCalls(s, accept, decline, again)
  {
    accept, decline, again := AcceptOffer(o, d, true), DeclineOrderPrice(o, s.db.orders[o].passenger), Refused(s, o, d, true);
    RoundComesBack(s, o, d);
    RoundIsTwoCalls(s, o, d, Accept(s, o, d, true), again);
  }

  lemma OneRoundMore(s: Desk, accept: Step, decline: Step, again: Desk, rest: seq<Step>)
    requires TwoCalls(s, accept, decline, again) && AllClosed(rest)
    ensures AllClosed([accept, decline] + rest)
    ensures EffectiveSteps(s, [accept, decline] + rest) == 2 + EffectiveSteps(again, rest)
  {
  }

  /** Acceptance and refusal, again and again. */
  lemma {:induction false} RoundsGoOn(s: Desk, o: Id, d: Id, n: nat) returns (run: seq<Step>)
    requires Unlisted(s, o, d)
    ensures AllClosed(run) && EffectiveSteps(s, run) == 2 * n
    decreases n
  {
    if n == 0 {
      run := [];
    } else {
      var accept, decline, again := OneRound(s, o, d);
      var rest := RoundsGoOn(again, o, d, n - 1);
      OneRoundMore(s, accept, decline, again, rest);
      run := [accept, decline] + rest;
    }
  }

  /** However a run goes on without new orders, drivers and requests, so many of its service calls have an effect. */
  ghost predicate EndsWithin(s: Desk, bound: nat) {
    forall more :: AllClosed(more) ==> EffectiveSteps(s, more) <= bound
  }

  ghost predicate Ends(s: Desk) {
    exists bound :: EndsWithin(s, bound)
  }

  lemma UnlistedNeverEnds(s: Desk, o: Id, d: Id)
    requires Unlisted(s, o, d)
    ensures !Ends(s)
  {
    forall bound: nat
      ensures !EndsWithin(s, bound)
    {
      var run := RoundsGoOn(s, o, d, bound + 1);
      assert EffectiveSteps(s, run) > bound;
    }
  }

  lemma OrderedDeskEnds(s: Desk)
    requires DeskOk(s)
    ensures Ends(s)
  {
    forall more | AllClosed(more)
      ensures EffectiveSteps(s, more) <= Potential(s)
    {
      DispatchTerminates(s, more);
    }
    assert EndsWithin(s, Potential(s));
  }

  /** From every state that the service can get into, dispatch ends. */
  ghost predicate AlwaysEnds(service: NormalConfig, allowed: set<Option<Config>>) {
    forall steps :: AllPass(Opening(service), steps, allowed) ==> Ends(DoAll(Opening(service), steps))
  }

  /** In every state that the service can get into, released drivers are away for good. */
  ghost predicate AlwaysStaysAway(service: NormalConfig, allowed: set<Option<Config>>) {
    forall steps :: AllPass(Opening(service), steps, allowed) ==> DeclinedAreAway(DoAll(Opening(service), steps))
  }

  ghost predicate DeclinedAreAway(s: Desk) {
    forall o, d :: o in s.db.orders && d in s.db.orders[o].declined ==>
      s.db.orders[o].driver != Some(d) && Find(s.keys, s.db.now, o, d).None?
  }

  lemma PassingDeskIsOk(service: NormalConfig, steps: seq<Step>, allowed: set<Option<Config>>)
    requires AllPass(Opening(service), steps, allowed)
    requires forall c :: c in allowed && c.Some? ==> Normalize(c.value).offerTtl == service.offerTtl
    ensures DeskOk(DoAll(Opening(service), steps))
  {
    OneLifetimeFits(Opening(service), steps, allowed);
    OpeningIsOk(service);
    RunKeepsDesk(Opening(service), steps);
  }

  /** Dispatch always ends exactly when the orders that ask for the price are offered with one lifetime: a configuration
      for them does no harm if and only if its lifetime is the service's own. Park orders may have any. */
  lemma DispatchAlwaysEndsIff(service: NormalConfig, c: Config)
    ensures AlwaysEnds(service, {None, Some(c)}) <==> Normalize(c).offerTtl == service.offerTtl
  {
    var allowed := {None, Some(c)};
    if Normalize(c).offerTtl == service.offerTtl {
      forall steps | AllPass(Opening(service), steps, allowed)
        ensures Ends(DoAll(Opening(service), steps))
      {
        PassingDeskIsOk(service, steps, allowed);
        OrderedDeskEnds(DoAll(Opening(service), steps));
      }
    } else {
      var steps := UnlistedIsReached(service, c);
      UnlistedNeverEnds(DoAll(Opening(service), steps), 0, 0);
    }
  }

  /** And exactly then a released driver never has an offer of the order again. */
  lemma DriversStayAwayIff(service: NormalConfig, c: Config)
    ensures AlwaysStaysAway(service, {None, Some(c)}) <==> Normalize(c).offerTtl == service.offerTtl
  {
    var allowed := {None, Some(c)};
    if Normalize(c).offerTtl == service.offerTtl {
      forall steps | AllPass(Opening(service), steps, allowed)
        ensures DeclinedAreAway(DoAll(Opening(service), steps))
      {
        PassingDeskIsOk(service, steps, allowed);
        OrderedDeskKeepsAway(DoAll(Opening(service), steps));
      }
    } else {
      var steps := ReturnIsReached(service, c);
      assert !DeclinedAreAway(DoAll(Opening(service), steps));
    }
  }

  lemma OrderedDeskKeepsAway(s: Desk)
    requires DeskOk(s)
    ensures DeclinedAreAway(s)
  {
    forall o, d | o in s.db.orders && d in s.db.orders[o].declined
      ensures s.db.orders[o].driver != Some(d) && Find(s.keys, s.db.now, o, d).None?
    {
      DeclinedStayAway(s, o, d);
    }
  }

  lemma ReturnIsReached(service: NormalConfig, c: Config) returns (steps: seq<Step>)
    requires Normalize(c).offerTtl != service.offerTtl
    ensures AllPass(Opening(service), steps, {None, Some(c)})
    ensures !DeclinedAreAway(DoAll(Opening(service), steps))
  {
    steps := UnlistedIsReached(service, c);
    var s := DoAll(Opening(service), steps);
    steps := RefusedRun(Opening(service), steps, s, {None, Some(c)});
    RefusedDriverIsBack(s);
  }

  lemma RefusedDriverIsBack(s: Desk)
    requires Unlisted(s, 0, 0)
    ensures !DeclinedAreAway(Refused(s, 0, 0, true))
  {
    DeclinedOfferReturnsIffUnlisted(s, 0, 0, true);
    assert Find(Refused(s, 0, 0, true).keys, Refused(s, 0, 0, true).db.now, 0, 0).Some?;
  }

  lemma RefusedRun(start: Desk, steps: seq<Step>, s: Desk, allowed: set<Option<Config>>) returns (longer: seq<Step>)
    requires AllPass(start, steps, allowed) && s == DoAll(start, steps) && 0 in s.db.orders
    ensures AllPass(start, longer, allowed) && DoAll(start, longer) == Refused(s, 0, 0, true)
  {
    var accept, decline := AcceptOffer(0, 0, true), DeclineOrderPrice(0, s.db.orders[0].passenger);
    RoundSteps(s, 0, 0);
    PassOneMore(start, steps, accept, allowed);
    OneMore(start, steps, s, accept, Accept(s, 0, 0, true));
    PassOneMore(start, steps + [accept], decline, allowed);
    OneMore(start, steps + [accept], Accept(s, 0, 0, true), decline, Refused(s, 0, 0, true));
    longer := steps + [accept] + [decline];
  }

  /** The program passes no configuration for them at all, so that its dispatch always ends. */
  lemma ProgramEnds(service: NormalConfig)
    ensures AlwaysEnds(service, {None}) && AlwaysStaysAway(service, {None})
  {
    forall steps | AllPass(Opening(service), steps, {None})
      ensures Ends(DoAll(Opening(service), steps)) && DeclinedAreAway(DoAll(Opening(service), steps))
    {
      PassingDeskIsOk(service, steps, {None});
      OrderedDeskEnds(DoAll(Opening(service), steps));
      OrderedDeskKeepsAway(DoAll(Opening(service), steps));
    }
  }
}
