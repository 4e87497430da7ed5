/** What becomes of an invitation, told in its columns: when an answer counts and what it leaves, who can be invited, and
    what a transfer moves: internal/driverinvite/service.go. */
module InviteOutcomes {
  import opened Prelude
  import opened Invites
  import Orders
  import D = Database

  // ----- answers -----

  /** The invitation as it was, with this answer, dated now in the answer's own column. */
  predicate Answered(before: Invite, after: Invite, answer: InviteStatus, now: Instant) {
    && after.status == answer
    && after.acceptedAt == (if answer == Accepted then Some(now) else before.acceptedAt)
    && after.declinedAt == (if answer == Declined then Some(now) else before.declinedAt)
    && after.cancelledAt == (if answer == Cancelled then Some(now) else before.cancelledAt)
    && after.driver == before.driver && after.from == before.from && after.to == before.to
    && after.createdBy == before.createdBy && after.createdAt == before.createdAt && after.expiresAt == before.expiresAt
  }

  lemma DecidingStores(o: Office, id: Id, i: Invite, answer: InviteStatus, after: Office, reply: Result<Invite, InviteError>)
    requires i.driver in o.db.drivers && i.driver in o.registered && (after, reply) == Deciding(o, id, i, answer) && reply.Ok?
    ensures answer in {Accepted, Declined, Cancelled} && id in after.invites && after.invites[id] == reply.value
    ensures Answered(i, reply.value, answer, o.db.now)
  {
  }

  /** An answer that succeeds is stored and returned as given. */
  lemma AnswerIsStored(o: Office, actor: Id, found: Option<Id>, id: Id, answer: InviteStatus)
    requires o.db.drivers.Keys <= o.registered.Keys && Respond(o, actor, found, id, answer).1.Ok?
    ensures var (after, reply) := Respond(o, actor, found, id, answer);
            && answer in {Accepted, Declined, Cancelled} && id in o.invites
            && id in after.invites && after.invites[id] == reply.value
            && Answered(o.invites[id], reply.value, answer, o.db.now)
  {
    var (after, reply) := Respond(o, actor, found, id, answer);
    DecidingStores(o, id, o.invites[id], answer, after, reply);
  }

  /** It is answered by its driver, with a decline, or withdrawn by the park that made it, while it is alive. */
  lemma DeclinedIff(o: Office, actor: Id, found: Option<Id>, id: Id)
    requires OfficeOk(o)
    ensures Respond(o, actor, found, id, Declined).1.Ok? <==>
              && id in o.invites && o.invites[id].driver in o.db.drivers
              && o.invites[id].status == Pending && o.db.now < o.invites[id].expiresAt
              && found == Some(o.invites[id].driver) && o.db.drivers[o.invites[id].driver].user == actor
  {
  }

  lemma CancelledIff(o: Office, actor: Id, found: Option<Id>, id: Id)
    requires OfficeOk(o)
    ensures Respond(o, actor, found, id, Cancelled).1.Ok? <==>
              && id in o.invites && o.invites[id].driver in o.db.drivers
              && o.invites[id].status == Pending && o.db.now < o.invites[id].expiresAt
              && actor in o.staff && o.staff[actor] in o.parks && o.invites[id].to == o.staff[actor]
  {
  }

  /** An acceptance needs more: an active park to move to, and a driver who is off line and without an open order. */
  lemma AcceptedExactlyIf(o: Office, actor: Id, found: Option<Id>, id: Id)
    requires OfficeOk(o)
    ensures Respond(o, actor, found, id, Accepted).1.Ok? <==>
              && id in o.invites && o.invites[id].driver in o.db.drivers
              && var i, driver := o.invites[id], o.db.drivers[o.invites[id].driver];
              && i.status == Pending && o.db.now < i.expiresAt
              && found == Some(i.driver) && driver.user == actor
              && i.to in o.parks && o.parks[i.to] && driver.status == D.Offline
              && forall p :: p in o.db.orders && (o.db.orders[p].driver == Some(i.driver) || o.db.orders[p].preassigned == Some(i.driver))
                   ==> o.db.orders[p].status in {Orders.Completed, Orders.Cancelled, Orders.Failed}
  {
    if id in o.invites && found == Some(o.invites[id].driver) && o.invites[id].driver in o.db.drivers {
      AcceptedIff(o, actor, found, id);
      FreeToMoveIff(o.db, o.invites[id].driver);
    }
  }

  lemma FreeToMoveIff(db: D.Db, d: Id)
    requires d in db.drivers
    ensures D.CanTransfer(db, d) <==>
              db.drivers[d].status == D.Offline
              && forall p :: p in db.orders && (db.orders[p].driver == Some(d) || db.orders[p].preassigned == Some(d))
                   ==> db.orders[p].status in {Orders.Completed, Orders.Cancelled, Orders.Failed}
  {
  }

  /** One invitation changed, and nothing else. */
  predicate TouchesOne(o: Office, after: Office, id: Id) {
    && after == o.(invites := after.invites) && after.invites.Keys == o.invites.Keys
    && forall j :: j in o.invites && j != id ==> after.invites[j] == o.invites[j]
  }

  lemma DecidingTouchesOne(o: Office, id: Id, i: Invite, answer: InviteStatus, after: Office, reply: Result<Invite, InviteError>)
    requires i.driver in o.db.drivers && i.driver in o.registered && id in o.invites && o.invites[id] == i
    requires (after, reply) == Deciding(o, id, i, answer) && (answer != Accepted || reply.Err?)
    ensures TouchesOne(o, after, id)
    ensures reply.Err? ==>
              after.invites[id] == i
              || (i.status == Pending && i.expiresAt <= o.db.now && reply == Err(Lapsed) && after.invites[id] == i.(status := Expired))
  {
  }

  /** Any answer but an acceptance touches that invitation alone, and a refused one only if it came too late: then the
      invitation is closed as run out. */
  lemma OnlyAcceptanceMoves(o: Office, actor: Id, found: Option<Id>, id: Id, answer: InviteStatus)
    requires OfficeOk(o) && (answer != Accepted || !Respond(o, actor, found, id, answer).1.Ok?)
    ensures var (after, reply) := Respond(o, actor, found, id, answer);
            && TouchesOne(o, after, id)
            && (reply.Err? && id in o.invites ==>
                  after.invites[id] == o.invites[id]
                  || (o.invites[id].status == Pending && o.invites[id].expiresAt <= o.db.now && reply == Err(Lapsed)
                      && after.invites[id] == o.invites[id].(status := Expired)))
  {
    if MayRespond(o, actor, found, id, answer).None? {
      var (after, reply) := Respond(o, actor, found, id, answer);
      DecidingTouchesOne(o, id, o.invites[id], answer, after, reply);
    }
  }

  // ----- a transfer -----

  /** How the driver's other invitations end: by cancellation, or by their own date. */
  predicate OthersEnded(before: map<Id, Invite>, after: map<Id, Invite>, d: Id, id: Id, now: Instant) {
    && after.Keys == before.Keys + {id}
    && forall j :: j in before && j != id ==>
         var was := before[j];
         after[j] ==
           if was.driver != d || was.status != Pending then was
           else if now < was.expiresAt then was.(status := Cancelled, cancelledAt := Some(now))
           else was.(status := Expired)
  }

  lemma CancellingEnds(invites: map<Id, Invite>, d: Id, id: Id, now: Instant, done: Invite)
    requires forall j :: j in invites ==> Dated(invites[j])
    ensures OthersEnded(invites, CancelOthers(invites, d, id, now)[id := done], d, id, now)
  {
    forall j | j in invites && invites[j].status == Pending
      ensures invites[j].cancelledAt == None
    {
      assert Dated(invites[j]);
    }
  }

  /** An acceptance moves the driver, unverified and off line, ends his other pending invitations, takes every car from him,
      opens his account with the park, and touches nothing else but his stays. */
  lemma AcceptanceOutcome(o: Office, actor: Id, found: Option<Id>, id: Id)
    requires OfficeOk(o) && Respond(o, actor, found, id, Accepted).1.Ok?
    ensures var after, i := Respond(o, actor, found, id, Accepted).0, o.invites[id];
            var d, to := i.driver, i.to;
            && after.db == o.db.(drivers := o.db.drivers[d := o.db.drivers[d].(park := Some(to), verified := false)])
            && after.staff == o.staff && after.parks == o.parks && after.registered == o.registered
            && after.accounts == o.accounts + {(d, to)}
            && Detached(o, after, d) && OthersEnded(o.invites, after.invites, d, id, o.db.now)
  {
    AcceptedExactlyIf(o, actor, found, id);
    var done := o.invites[id].(status := Accepted, acceptedAt := Some(o.db.now));
    CancellingEnds(o.invites, done.driver, id, o.db.now, done);
    TransferMoves(o, done.driver, done.to, id);
    AcceptedIsAccepting(o, actor, found, id, done);
  }

  lemma AcceptedIsAccepting(o: Office, actor: Id, found: Option<Id>, id: Id, done: Invite)
    requires OfficeOk(o) && Respond(o, actor, found, id, Accepted).1.Ok?
    requires done == o.invites[id].(status := Accepted, acceptedAt := Some(o.db.now))
    ensures Respond(o, actor, found, id, Accepted).0 == Accepting(o, id, done)
  {
  }

  /** No car is lent to the driver or owned by him any more; all others stay as they were. */
  ghost predicate Detached(o: Office, after: Office, d: Id) {
    && (forall c, e :: (c, e) in after.carLoans <==> (c, e) in o.carLoans && e != d)
    && after.carOwners.Keys == o.carOwners.Keys
    && forall c :: c in o.carOwners ==> after.carOwners[c] == if o.carOwners[c] == Some(d) then None else o.carOwners[c]
  }

  lemma TransferMoves(o: Office, d: Id, to: Id, invite: Id)
    requires d in o.db.drivers && d in o.registered && o.db.drivers[d].status == D.Offline
    ensures var after := TransferTo(o, d, to, invite);
            && after.db == o.db.(drivers := o.db.drivers[d := o.db.drivers[d].(park := Some(to), verified := false)])
            && Detached(o, after, d) && after.accounts == o.accounts + {(d, to)}
  {
    var after := TransferTo(o, d, to, invite);
    forall c, e
      ensures (c, e) in after.carLoans <==> (c, e) in o.carLoans && e != d
    {
      assert (c, e).1 == e;
    }
  }

  /** His last stay ends now and the new one begins; a driver registered before the history existed first gets the stay he
      was in. No other driver's stays change. */
  lemma AcceptanceStays(o: Office, actor: Id, found: Option<Id>, id: Id)
    requires OfficeOk(o) && Respond(o, actor, found, id, Accepted).1.Ok?
    ensures var after, i, now := Respond(o, actor, found, id, Accepted).0, o.invites[id], o.db.now;
            var d, stays := i.driver, StaysOf(o, i.driver);
            var park, begun := o.db.drivers[d].park, Stay(i.to, now, None, Some(id));
            && (forall e :: e != d ==> StaysOf(after, e) == StaysOf(o, e))
            && StaysOf(after, d) ==
               if stays != [] then stays[..|stays| - 1] + [stays[|stays| - 1].(left := Some(now)), begun]
               else if park.Some? then [Stay(park.value, o.registered[d], Some(now), None), begun]
               else [begun]
  {
    var i, now := o.invites[id], o.db.now;
    var d, done := i.driver, i.(status := Accepted, acceptedAt := Some(now));
    AcceptedExactlyIf(o, actor, found, id);
    assert Chain(StaysOf(o, d), o.db.drivers[d].park, now);
    StaysAreClosed(StaysOf(o, d), o.db.drivers[d].park, o.registered[d], i.to, now, id);
    AcceptingStays(o, id, done);
  }

  lemma AcceptingStays(o: Office, id: Id, done: Invite)
    requires done.driver in o.db.drivers && done.driver in o.registered
    ensures var after, d := Accepting(o, id, done), done.driver;
            && (forall e :: e != d ==> StaysOf(after, e) == StaysOf(o, e))
            && StaysOf(after, d) == TransferredStays(StaysOf(o, d), o.db.drivers[d].park, o.registered[d], done.to, o.db.now, id)
  {
  }

  lemma StaysAreClosed(stays: seq<Stay>, park: Option<Id>, registered: Instant, to: Id, now: Instant, id: Id)
    requires Chain(stays, park, now)
    ensures TransferredStays(stays, park, registered, to, now, id) ==
            if stays != [] then stays[..|stays| - 1] + [stays[|stays| - 1].(left := Some(now)), Stay(to, now, None, Some(id))]
            else if park.Some? then [Stay(park.value, registered, Some(now), None), Stay(to, now, None, Some(id))]
            else [Stay(to, now, None, Some(id))]
  {
    if stays != [] {
      assert HasOpenStay(stays);
      ClosedStays(stays, now);
      var closed := stays[..|stays| - 1] + [stays[|stays| - 1].(left := Some(now))];
      forall k | 0 <= k < |stays|
        ensures CloseStays(stays, now)[k] == closed[k]
      {
        assert k < |stays| - 1 ==> stays[k].left == Some(stays[k + 1].joined);
      }
      assert CloseStays(stays, now) == closed;
    } else if park.Some? {
      var backfilled := [Stay(park.value, registered, None, None)];
      ClosedStays(backfilled, now);
      assert CloseStays(backfilled, now) == [Stay(park.value, registered, Some(now), None)];
    }
  }

  // ----- invitations -----

  /** A park's member may invite: his park is active, and the driver is known and not with it. */
  predicate Invitable(o: Office, actor: Id, found: Option<Id>) {
    && actor in o.staff && o.staff[actor] in o.parks && o.parks[o.staff[actor]]
    && found.Some? && found.value in o.db.drivers && o.db.drivers[found.value].park != Some(o.staff[actor])
  }

  /** The driver's pending invitation to the park that has not run out. */
  predicate Standing(o: Office, i: Id, d: Id, to: Id) {
    && i in o.invites && o.invites[i].driver == d && o.invites[i].to == to && o.invites[i].status == Pending
    && o.db.now < o.invites[i].expiresAt
  }

  lemma FindsStanding(o: Office, d: Id, to: Id)
    ensures var found := FindPending(Expire(o.invites, d, o.db.now), d, to);
            && (found.Some? ==> Standing(o, found.value, d, to))
            && (found.None? ==> forall i :: !Standing(o, i, d, to))
  {
    var invites := Expire(o.invites, d, o.db.now);
    if FindPending(invites, d, to).None? {
      forall i
        ensures !Standing(o, i, d, to)
      {
        assert i in invites ==> !PendingFor(invites[i], d, to);
      }
    }
  }

  /** Inviting succeeds exactly for someone who may, if an invitation stands already, or the driver's park is known and the
      id is new. */
  lemma CreatedIff(o: Office, actor: Id, found: Option<Id>, ttl: nat, id: Id)
    requires OfficeOk(o) && ttl > 0
    ensures Create(o, actor, found, ttl, id).1.Ok? <==>
              && Invitable(o, actor, found)
              && ((exists i :: Standing(o, i, found.value, o.staff[actor]))
                  || ((o.db.drivers[found.value].park.Some? ==> o.db.drivers[found.value].park.value in o.parks) && id !in o.invites))
  {
    if Invitable(o, actor, found) {
      FindsStanding(o, found.value, o.staff[actor]);
    }
  }

  /** The driver's pending invitations that have run out are marked so; the others, but for this one, are as before. */
  predicate LapsedMarked(before: map<Id, Invite>, after: map<Id, Invite>, d: Id, id: Id, now: Instant) {
    && after.Keys == before.Keys + {id}
    && forall j :: j in before && j != id ==>
         var was := before[j];
         after[j] == if was.driver == d && was.status == Pending && was.expiresAt <= now then was.(status := Expired) else was
  }

  lemma InvitingOutcome(o: Office, d: Id, to: Id, actor: Id, ttl: nat, id: Id, after: Office, reply: Result<Id, InviteError>)
    requires d in o.db.drivers && (after, reply) == Inviting(o, d, to, actor, ttl, id)
    ensures after == o.(invites := after.invites) && (reply.Err? ==> after == o)
    ensures reply.Ok? ==>
              && LapsedMarked(o.invites, after.invites, d, reply.value, o.db.now)
              && if exists i :: Standing(o, i, d, to) then
                   Standing(o, reply.value, d, to) && after.invites[reply.value] == o.invites[reply.value]
                 else
                   && reply.value == id && id !in o.invites
                   && after.invites[id] == Invite(d, o.db.drivers[d].park, to, Pending, actor, o.db.now, o.db.now + ttl, None, None, None)
  {
    FindsStanding(o, d, to);
  }

  /** The invitation that stands is returned, or else one is written: pending, from the driver's park to the inviting one,
      for the configured time. After a refusal nothing has changed. */
  lemma CreateOutcome(o: Office, actor: Id, found: Option<Id>, ttl: nat, id: Id)
    requires OfficeOk(o) && ttl > 0
    ensures var (after, reply) := Create(o, actor, found, ttl, id);
            && after == o.(invites := after.invites) && (reply.Err? ==> after == o)
            && (reply.Ok? ==>
                  var d, to := found.value, o.staff[actor];
                  && LapsedMarked(o.invites, after.invites, d, reply.value, o.db.now)
                  && if exists i :: Standing(o, i, d, to) then
                       Standing(o, reply.value, d, to) && after.invites[reply.value] == o.invites[reply.value]
                     else
                       && reply.value == id && id !in o.invites
                       && after.invites[id] == Invite(d, o.db.drivers[d].park, to, Pending, actor, o.db.now, o.db.now + ttl, None, None, None))
  {
    var (after, reply) := Create(o, actor, found, ttl, id);
    if MayInvite(o, actor, found).None? {
      InvitingOutcome(o, found.value, o.staff[actor], actor, ttl, id, after, reply);
    }
  }
}
