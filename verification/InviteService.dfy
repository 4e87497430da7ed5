/** The invitation service as it runs: its decisions in the order of internal/driverinvite/service.go over the statements
    of internal/repository/driver_park_invite_repository.go. A method that fails leaves the tables as they were, as the
    rolled back transaction does. */
module InviteService {
  import opened Prelude
  import opened Invites
  import opened InviteOutcomes
  import D = Database
  import Tables = OrderTables

  method EndStays(own: seq<Stay>, now: Instant) returns (ended: seq<Stay>)
    ensures ended == CloseStays(own, now)
  {
    ended := [];
    for k := 0 to |own|
      invariant ended == CloseStays(own[..k], now)
    {
      assert own[..k + 1][..k] == own[..k];
      ended := ended + [if own[k].left.None? then own[k].(left := Some(now)) else own[k]];
    }
    assert own[..|own|] == own;
  }

  class Service {
    const tables: Tables.OrderTables
    var staff: map<Id, Id>
    var parks: map<Id, bool>
    var registered: map<Id, Instant>
    var invites: map<Id, Invite>
    var stays: map<Id, seq<Stay>>
    var carOwners: map<Id, Option<Id>>
    var carLoans: set<(Id, Id)>
    var accounts: set<(Id, Id)>

    constructor (tables: Tables.OrderTables)
      ensures this.tables == tables && fresh(this)
      ensures State() == Office(tables.State(), map[], map[], map[], map[], map[], map[], {}, {})
    {
      this.tables := tables;
      staff, parks, registered, invites, stays, carOwners := map[], map[], map[], map[], map[], map[];
      carLoans, accounts := {}, {};
    }

    ghost function State(): Office
      reads this, tables
    {
      Office(tables.State(), staff, parks, registered, invites, stays, carOwners, carLoans, accounts)
    }

    // ----- statements -----

    method ExpireInvites(d: Id)
      modifies this`invites
      ensures invites == Expire(old(invites), d, tables.now)
    {
      invites := map i | i in invites :: ExpireRow(invites[i], d, tables.now);
    }

    method Pending(d: Id, park: Id) returns (found: Option<Id>)
      requires OnePendingEach(invites)
      ensures found == FindPending(invites, d, park)
    {
      found := None;
      var rest := invites.Keys;
      while rest != {}
        invariant rest <= invites.Keys
        invariant found.Some? ==> found.value in invites && PendingFor(invites[found.value], d, park)
        invariant found.None? ==> forall i :: i in invites && i !in rest ==> !PendingFor(invites[i], d, park)
        decreases rest
      {
        var i :| i in rest;
        rest := rest - {i};
        if PendingFor(invites[i], d, park) {
          found := Some(i);
        }
      }
      if found.Some? {
        PendingIsUnique(invites, d, park, found.value);
      }
    }

    method Save(id: Id, invite: Invite)
      modifies this`invites
      ensures invites == old(invites)[id := invite]
    {
      invites := invites[id := invite];
    }

    method CancelOtherPending(d: Id, accepted: Id)
      modifies this`invites
      ensures invites == CancelOthers(old(invites), d, accepted, tables.now)
    {
      invites := map i | i in invites :: if i == accepted then invites[i] else SupersedeRow(invites[i], d, tables.now);
    }

    /** The driver's stays with the old one closed: a missing one is written first. */
    method CloseStay(d: Id) returns (own: seq<Stay>)
      requires d in tables.drivers && d in registered
      ensures own == CloseStays(BackfilledStays(StaysOf(State(), d), tables.drivers[d].park, registered[d]), tables.now)
    {
      own := if d in stays then stays[d] else [];
      var park := tables.drivers[d].park;
      if park.Some? && !HasOpenStay(own) {
        own := own + [Stay(park.value, registered[d], None, None)];
      }
      own := EndStays(own, tables.now);
    }

    /** The driver's row names the new park and asks for a new verification, and his next stay begins. */
    method Rehome(d: Id, to: Id, invite: Id)
      requires d in tables.drivers && d in registered
      modifies this`stays, tables`drivers
      ensures stays == old(stays)[d := TransferredStays(old(StaysOf(State(), d)), old(tables.drivers)[d].park, registered[d], to, tables.now, invite)]
      ensures tables.drivers
           == old(tables.drivers)[d := old(tables.drivers)[d].(park := Some(to), status := D.Offline, verified := false)]
    {
      var own := CloseStay(d);
      tables.drivers := tables.drivers[d := tables.drivers[d].(park := Some(to), status := D.Offline, verified := false)];
      stays := stays[d := own + [Stay(to, tables.now, None, Some(invite))]];
    }

    /** No car stays with a driver who leaves. */
    method DetachCars(d: Id)
      modifies this`carLoans, this`carOwners
      ensures carLoans == LoansWithout(old(carLoans), d) && carOwners == OwnersWithout(old(carOwners), d)
    {
      carLoans := set loan | loan in carLoans && loan.1 != d;
      carOwners := map c | c in carOwners :: if carOwners[c] == Some(d) then None else carOwners[c];
    }

    method Transfer(d: Id, to: Id, invite: Id)
      requires d in tables.drivers && d in registered
      modifies this`stays, this`carLoans, this`carOwners, this`accounts, tables`drivers
      ensures State() == TransferTo(old(State()), d, to, invite)
    {
      Rehome(d, to, invite);
      DetachCars(d);
      accounts := accounts + {(d, to)};
    }

    // ----- the service -----

    method Create(actor: Id, found: Option<Id>, ttl: nat, id: Id) returns (answer: Result<Id, InviteError>)
      requires ttl > 0 && OnePendingEach(invites)
      modifies this`invites
      ensures (State(), answer) == Invites.Create(old(State()), actor, found, ttl, id)
    {
      if actor !in staff {
        return Err(Forbidden);
      }
      var to := staff[actor];
      if to !in parks {
        return Err(NotFound);
      }
      if !parks[to] {
        return Err(InactivePark);
      }
      if found.None? || found.value !in tables.drivers {
        return Err(NotFound);
      }
      var d := found.value;
      if tables.drivers[d].park == Some(to) {
        return Err(SamePark);
      }
      answer := WriteInvite(d, to, actor, ttl, id);
    }

    /** Expires, looks for a pending invitation, and writes one if there is none. */
    method WriteInvite(d: Id, to: Id, actor: Id, ttl: nat, id: Id) returns (answer: Result<Id, InviteError>)
      requires OnePendingEach(invites) && d in tables.drivers
      modifies this`invites
      ensures (State(), answer) == Inviting(old(State()), d, to, actor, ttl, id)
    {
      var before := invites;
      ExpireInvites(d);
      var existing := Pending(d, to);
      if existing.Some? {
        return Ok(existing.value);
      }
      var park := tables.drivers[d].park;
      if park.Some? && park.value !in parks {
        invites := before;
        return Err(NotFound);
      }
      if id in invites {
        invites := before;
        return Err(DuplicateId);
      }
      Save(id, NewInvite(d, park, to, actor, tables.now, ttl));
      return Ok(id);
    }

    method Respond(actor: Id, found: Option<Id>, id: Id, action: InviteStatus) returns (answer: Result<Invite, InviteError>)
      requires tables.drivers.Keys <= registered.Keys
      modifies this`invites, this`stays, this`carLoans, this`carOwners, this`accounts, tables`drivers
      ensures (State(), answer) == Invites.Respond(old(State()), actor, found, id, action)
      ensures answer.Ok? ==> id in old(invites) && id in invites && invites[id] == answer.value
                             && Answered(old(invites)[id], answer.value, action, tables.now)
    {
      if id !in invites || invites[id].driver !in tables.drivers {
        return Err(NotFound);
      }
      var invite := invites[id];
      if action == Cancelled {
        if actor !in staff {
          return Err(Forbidden);
        }
        if staff[actor] !in parks || invite.to != staff[actor] {
          return Err(NotFound);
        }
      } else if found != Some(invite.driver) || tables.drivers[invite.driver].user != actor {
        return Err(NotFound);
      }
      answer := Decide(id, invite, action);
      if answer.Ok? {
        AnswerIsStored(old(State()), actor, found, id, action);
      }
    }

    method Decide(id: Id, invite: Invite, action: InviteStatus) returns (answer: Result<Invite, InviteError>)
      requires id in invites && invites[id] == invite && invite.driver in tables.drivers && invite.driver in registered
      modifies this`invites, this`stays, this`carLoans, this`carOwners, this`accounts, tables`drivers
      ensures (State(), answer) == Deciding(old(State()), id, invite, action)
    {
      var now := tables.now;
      var closed := EnsurePending(invite, now);
      if closed.Some? {
        if invite.status == InviteStatus.Pending {
          Save(id, invite.(status := Expired));
        }
        return Err(closed.value);
      }
      var done := invite;
      match action {
        case Accepted =>
          if invite.to !in parks {
            return Err(NotFound);
          }
          if !parks[invite.to] {
            return Err(InactivePark);
          }
          var hasOrders := D.HasOpenOrder(tables.orders, invite.driver);
          var driver := tables.drivers[invite.driver];
          var blocked := EnsureTransfer(invite, driver.park, driver.status, hasOrders);
          if blocked.Some? {
            return Err(blocked.value);
          }
          done := done.(acceptedAt := Some(now));
          Transfer(invite.driver, invite.to, id);
          CancelOtherPending(invite.driver, id);
        case Declined => done := done.(declinedAt := Some(now));
        case Cancelled => done := done.(cancelledAt := Some(now));
        case _ => return Err(Forbidden);
      }
      done := done.(status := action);
      Save(id, done);
      return Ok(done);
    }
  }
}
