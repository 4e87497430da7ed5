/** Invitations of drivers to other taxi parks and the transfers they end in: internal/driverinvite/service.go,
    internal/domain/driver_park_invite.go and the transaction of internal/repository/driver_park_invite_repository.go. */
module Invites {
  import opened Prelude
  import D = Database
  import R = Reservations

  type Id = D.Id
  type Instant = D.Instant

  datatype InviteStatus = Pending | Accepted | Declined | Cancelled | Expired

  datatype Invite = Invite(
    driver: Id, from: Option<Id>, to: Id, status: InviteStatus, createdBy: Id, createdAt: Instant, expiresAt: Instant,
    acceptedAt: Option<Instant>, declinedAt: Option<Instant>, cancelledAt: Option<Instant>)

  /** One stay of a driver with a park. */
  datatype Stay = Stay(park: Id, joined: Instant, left: Option<Instant>, invite: Option<Id>)

  datatype InviteError =
    | NotFound | Closed | Lapsed | SamePark | InactivePark | DriverWorking | ContextChanged | Forbidden | DuplicateId

  /** The tables an invitation touches. `staff` answers which park a user works for, `parks` which parks are active. */
  datatype Office = Office(
    db: D.Db, staff: map<Id, Id>, parks: map<Id, bool>, registered: map<Id, Instant>,
    invites: map<Id, Invite>, stays: map<Id, seq<Stay>>,
    carOwners: map<Id, Option<Id>>, carLoans: set<(Id, Id)>, accounts: set<(Id, Id)>)

  // ----- the checks of an invitation -----

  function EnsurePending(i: Invite, now: Instant): Option<InviteError> {
    if i.status == Expired || (i.status == Pending && now >= i.expiresAt) then Some(Lapsed)
    else if i.status != Pending then Some(Closed)
    else None
  }

  function EnsureTransfer(i: Invite, park: Option<Id>, status: D.DriverStatus, hasOrders: bool): Option<InviteError> {
    if park != i.from then Some(ContextChanged)
    else if park == Some(i.to) then Some(SamePark)
    else if status != D.Offline || hasOrders then Some(DriverWorking)
    else None
  }

  // ----- single statements -----

  predicate PendingFor(i: Invite, d: Id, park: Id) {
    i.driver == d && i.to == park && i.status == Pending
  }

  /** The pending invitation that a query for one would return. */
  ghost function FindPending(invites: map<Id, Invite>, d: Id, park: Id): Option<Id> {
    if exists i :: i in invites && PendingFor(invites[i], d, park)
    then var i :| i in invites && PendingFor(invites[i], d, park); Some(i)
    else None
  }

  function ExpireRow(i: Invite, d: Id, now: Instant): Invite {
    if i.driver == d && i.status == Pending && i.expiresAt <= now then i.(status := Expired) else i
  }

  function Expire(invites: map<Id, Invite>, d: Id, now: Instant): map<Id, Invite> {
    map i | i in invites :: ExpireRow(invites[i], d, now)
  }

  function SupersedeRow(i: Invite, d: Id, now: Instant): Invite {
    if i.driver == d && i.status == Pending then
      if i.expiresAt <= now then i.(status := Expired, cancelledAt := None)
      else i.(status := Cancelled, cancelledAt := Some(now))
    else i
  }

  function CancelOthers(invites: map<Id, Invite>, d: Id, accepted: Id, now: Instant): map<Id, Invite> {
    map i | i in invites :: if i == accepted then invites[i] else SupersedeRow(invites[i], d, now)
  }

  predicate HasOpenStay(stays: seq<Stay>) {
    exists k :: 0 <= k < |stays| && stays[k].left.None?
  }

  /** Ends every open stay. */
  function CloseStays(stays: seq<Stay>, now: Instant): seq<Stay> {
    if stays == [] then []
    else
      var last := stays[|stays| - 1];
      CloseStays(stays[..|stays| - 1], now) + [if last.left.None? then last.(left := Some(now)) else last]
  }

  function StaysOf(o: Office, d: Id): seq<Stay> {
    if d in o.stays then o.stays[d] else []
  }

  /** A driver registered before the history existed gets the stay he is in. */
  function BackfilledStays(stays: seq<Stay>, park: Option<Id>, registered: Instant): seq<Stay> {
    if park.Some? && !HasOpenStay(stays) then stays + [Stay(park.value, registered, None, None)] else stays
  }

  function TransferredStays(stays: seq<Stay>, park: Option<Id>, registered: Instant, to: Id, now: Instant, invite: Id): seq<Stay> {
    CloseStays(BackfilledStays(stays, park, registered), now) + [Stay(to, now, None, Some(invite))]
  }

  function LoansWithout(loans: set<(Id, Id)>, d: Id): set<(Id, Id)> {
    set loan | loan in loans && loan.1 != d
  }

  function OwnersWithout(owners: map<Id, Option<Id>>, d: Id): map<Id, Option<Id>> {
    map c | c in owners :: if owners[c] == Some(d) then None else owners[c]
  }

  /** The seven statements of a transfer, in one transaction. */
  function TransferTo(o: Office, d: Id, to: Id, invite: Id): Office
    requires d in o.db.drivers && d in o.registered
  {
    var driver := o.db.drivers[d];
    o.(db := o.db.(drivers := o.db.drivers[d := driver.(park := Some(to), status := D.Offline, verified := false)]),
       stays := o.stays[d := TransferredStays(StaysOf(o, d), driver.park, o.registered[d], to, o.db.now, invite)],
       carLoans := LoansWithout(o.carLoans, d), carOwners := OwnersWithout(o.carOwners, d),
       accounts := o.accounts + {(d, to)})
  }

  // ----- the service -----

  /** Who may be invited, and by whom. */
  function MayInvite(o: Office, actor: Id, found: Option<Id>): Option<InviteError> {
    if actor !in o.staff then Some(Forbidden)
    else if o.staff[actor] !in o.parks then Some(NotFound)
    else if !o.parks[o.staff[actor]] then Some(InactivePark)
    else if found.None? || found.value !in o.db.drivers then Some(NotFound)
    else if o.db.drivers[found.value].park == Some(o.staff[actor]) then Some(SamePark)
    else None
  }

  /** Ends what has lapsed, and then finds or writes the invitation. */
  ghost function Inviting(o: Office, d: Id, to: Id, actor: Id, ttl: nat, id: Id): (Office, Result<Id, InviteError>)
    requires d in o.db.drivers
  {
    var invites, park := Expire(o.invites, d, o.db.now), o.db.drivers[d].park;
    var existing := FindPending(invites, d, to);
    if existing.Some? then (o.(invites := invites), Ok(existing.value))
    else if park.Some? && park.value !in o.parks then (o, Err(NotFound))
    else if id in invites then (o, Err(DuplicateId))
    else (o.(invites := invites[id := NewInvite(d, park, to, actor, o.db.now, ttl)]), Ok(id))
  }

  function NewInvite(d: Id, park: Option<Id>, to: Id, actor: Id, now: Instant, ttl: nat): Invite {
    Invite(d, park, to, Pending, actor, now, now + ttl, None, None, None)
  }

  /** `found` is the driver with the given phone, `ttl` the configured lifetime, `id` a new id.
      The answer is the invitation that now stands. */
  ghost function Create(o: Office, actor: Id, found: Option<Id>, ttl: nat, id: Id): (Office, Result<Id, InviteError>)
    requires ttl > 0
  {
    var refused := MayInvite(o, actor, found);
    if refused.Some? then (o, Err(refused.value)) else Inviting(o, found.value, o.staff[actor], actor, ttl, id)
  }

  /** Whose invitation it is to answer: the invited driver, or to cancel: the inviting park. */
  function MayRespond(o: Office, actor: Id, found: Option<Id>, id: Id, answer: InviteStatus): Option<InviteError> {
    if id !in o.invites || o.invites[id].driver !in o.db.drivers then Some(NotFound)
    else if answer == Cancelled then
      if actor !in o.staff then Some(Forbidden)
      else if o.staff[actor] !in o.parks || o.invites[id].to != o.staff[actor] then Some(NotFound)
      else None
    else if found != Some(o.invites[id].driver) || o.db.drivers[o.invites[id].driver].user != actor then Some(NotFound)
    else None
  }

  /** What stands in the way of a pending invitation being accepted. */
  function MayTransfer(o: Office, i: Invite): Option<InviteError>
    requires i.driver in o.db.drivers
  {
    if i.to !in o.parks then Some(NotFound)
    else if !o.parks[i.to] then Some(InactivePark)
    else
      var driver := o.db.drivers[i.driver];
      EnsureTransfer(i, driver.park, driver.status, D.HasOpenOrder(o.db.orders, i.driver))
  }

  function Closing(o: Office, id: Id, done: Invite): Office {
    o.(invites := o.invites[id := done])
  }

  /** The driver moves, his other pending invitations end, and this one is accepted. */
  function Accepting(o: Office, id: Id, done: Invite): Office
    requires done.driver in o.db.drivers && done.driver in o.registered
  {
    TransferTo(o, done.driver, done.to, id).(invites := CancelOthers(o.invites, done.driver, id, o.db.now)[id := done])
  }

  /** What the service makes of an answer from someone who may give it. */
  function Deciding(o: Office, id: Id, i: Invite, answer: InviteStatus): (Office, Result<Invite, InviteError>)
    requires i.driver in o.db.drivers && i.driver in o.registered
  {
    var now := o.db.now;
    var closed := EnsurePending(i, now);
    if closed.Some? then
      (if i.status == Pending then Closing(o, id, i.(status := Expired)) else o, Err(closed.value))
    else
      match answer
      case Accepted =>
        var blocked := MayTransfer(o, i);
        if blocked.Some? then (o, Err(blocked.value))
        else
          var done := i.(status := Accepted, acceptedAt := Some(now));
          (Accepting(o, id, done), Ok(done))
      case Declined =>
        var done := i.(status := Declined, declinedAt := Some(now));
        (Closing(o, id, done), Ok(done))
      case Cancelled =>
        var done := i.(status := Cancelled, cancelledAt := Some(now));
        (Closing(o, id, done), Ok(done))
      case _ => (o, Err(Forbidden))
  }

  function Respond(o: Office, actor: Id, found: Option<Id>, id: Id, answer: InviteStatus): (Office, Result<Invite, InviteError>)
    requires o.db.drivers.Keys <= o.registered.Keys
  {
    var refused := MayRespond(o, actor, found, id, answer);
    if refused.Some? then (o, Err(refused.value)) else Deciding(o, id, o.invites[id], answer)
  }

  // ----- the machine -----

  /** Invitations, answers, and everything else; only an accepted invitation moves a driver. `listed` says whether the
      registration of a driver opened his first stay. */
  datatype Step =
    | Invitation(actor: Id, found: Option<Id>, ttl: nat, id: Id)
    | Answer(actor: Id, found: Option<Id>, id: Id, answer: InviteStatus)
    | Register(d: Id, user: Id, home: Option<Id>, listed: bool)
    | SetPark(park: Id, active: bool)
    | Employ(user: Id, park: Id)
    | LendCar(car: Id, owner: Option<Id>, borrower: Id)
    | Elsewhere(action: D.Action)

  function Registering(o: Office, d: Id, user: Id, home: Option<Id>, listed: bool): Office {
    o.(db := o.db.(drivers := o.db.drivers[d := D.Driver(user, home, D.Offline, false)]), registered := o.registered[d := o.db.now],
       stays := o.stays[d := if home.Some? && listed then [Stay(home.value, o.db.now, None, None)] else []])
  }

  ghost function Do(o: Office, s: Step): Office
    requires o.db.drivers.Keys <= o.registered.Keys
  {
    match s
    case Invitation(actor, found, ttl, id) => if ttl > 0 then Create(o, actor, found, ttl, id).0 else o
    case Answer(actor, found, id, answer) => Respond(o, actor, found, id, answer).0
    case Register(d, user, home, listed) =>
      if d in o.db.drivers then o else Registering(o, d, user, home, listed)
    case SetPark(park, active) => o.(parks := o.parks[park := active])
    case Employ(user, park) => o.(staff := o.staff[user := park])
    case LendCar(car, owner, borrower) => o.(carOwners := o.carOwners[car := owner], carLoans := o.carLoans + {(car, borrower)})
    case Elsewhere(a) => if a.ChangePark? || a.NewDriver? then o else o.(db := D.Apply(o.db, a))
  }

  // ----- invariants -----

  /** A pending invitation still leads from where the driver is to somewhere else. */
  predicate InviteFits(db: D.Db, i: Invite) {
    i.status == Pending ==> i.driver in db.drivers && i.from == db.drivers[i.driver].park && i.from != Some(i.to)
  }

  /** An invitation lives after its creation, and exactly one answer is dated: the one it was given. */
  predicate Dated(i: Invite) {
    && i.createdAt < i.expiresAt
    && (i.status == Accepted <==> i.acceptedAt.Some?)
    && (i.status == Declined <==> i.declinedAt.Some?)
    && (i.status == Cancelled <==> i.cancelledAt.Some?)
  }

  predicate InvitesFit(db: D.Db, invites: map<Id, Invite>) {
    forall i :: i in invites ==> InviteFits(db, invites[i]) && Dated(invites[i])
  }

  /** What the partial unique index demands. */
  predicate OnePendingEach(invites: map<Id, Invite>) {
    forall i, j :: i in invites && j in invites && i != j && invites[i].status == Pending && invites[j].status == Pending
                   ==> invites[i].driver != invites[j].driver || invites[i].to != invites[j].to
  }

  /** Stays meet end to start, only the last is open, and it names the current park. */
  predicate Chain(stays: seq<Stay>, park: Option<Id>, now: Instant) {
    && (forall k :: 0 <= k < |stays| ==> stays[k].joined <= now)
    && (forall k :: 0 <= k < |stays| - 1 ==> stays[k].left == Some(stays[k + 1].joined) && stays[k].joined <= stays[k + 1].joined)
    && (stays != [] ==> stays[|stays| - 1].left.None? && park == Some(stays[|stays| - 1].park))
  }

  predicate StaysOk(o: Office) {
    && o.db.drivers.Keys <= o.registered.Keys
    && (forall d :: d in o.registered ==> o.registered[d] <= o.db.now)
    && (forall d :: d in o.db.drivers ==> Chain(StaysOf(o, d), o.db.drivers[d].park, o.db.now))
  }

  predicate OfficeOk(o: Office) {
    InvitesFit(o.db, o.invites) && OnePendingEach(o.invites) && StaysOk(o)
  }

  lemma {:induction false} ClosedStays(stays: seq<Stay>, now: Instant)
    ensures |CloseStays(stays, now)| == |stays|
    ensures forall k :: 0 <= k < |stays| ==>
              CloseStays(stays, now)[k] == if stays[k].left.None? then stays[k].(left := Some(now)) else stays[k]
  {
    if stays != [] {
      ClosedStays(stays[..|stays| - 1], now);
    }
  }

  /** Ending the stays of a chain ends only the last one, and leaves the links. */
  lemma ClosedChain(stays: seq<Stay>, park: Option<Id>, now: Instant)
    requires Chain(stays, park, now)
    ensures var closed := CloseStays(stays, now);
            && |closed| == |stays|
            && (forall k :: 0 <= k < |stays| ==> closed[k].joined == stays[k].joined)
            && (forall k :: 0 <= k < |stays| - 1 ==> closed[k].left == Some(closed[k + 1].joined))
            && (stays != [] ==> closed[|stays| - 1].left == Some(now))
  {
    ClosedStays(stays, now);
  }

  lemma BackfilledChain(stays: seq<Stay>, park: Option<Id>, registered: Instant, now: Instant)
    requires Chain(stays, park, now) && registered <= now
    ensures Chain(BackfilledStays(stays, park, registered), park, now)
  {
    if stays != [] {
      assert stays[|stays| - 1].left.None?;
      assert HasOpenStay(stays);
    }
  }

  lemma OpenedChain(closed: seq<Stay>, to: Id, now: Instant, invite: Id)
    requires forall k :: 0 <= k < |closed| ==> closed[k].joined <= now
    requires forall k :: 0 <= k < |closed| - 1 ==> closed[k].left == Some(closed[k + 1].joined) && closed[k].joined <= closed[k + 1].joined
    requires closed != [] ==> closed[|closed| - 1].left == Some(now)
    ensures Chain(closed + [Stay(to, now, None, Some(invite))], Some(to), now)
  {
  }

  lemma ClosedThenOpened(stays: seq<Stay>, closed: seq<Stay>, park: Option<Id>, to: Id, now: Instant, invite: Id)
    requires Chain(stays, park, now) && closed == CloseStays(stays, now)
    ensures Chain(closed + [Stay(to, now, None, Some(invite))], Some(to), now)
  {
    ClosedChain(stays, park, now);
    OpenedChain(closed, to, now, invite);
  }

  /** A transfer lengthens the chain by exactly one stay, open with the new park. */
  lemma TransferExtendsChain(stays: seq<Stay>, park: Option<Id>, registered: Instant, to: Id, now: Instant, invite: Id)
    requires Chain(stays, park, now) && registered <= now
    ensures var after := TransferredStays(stays, park, registered, to, now, invite);
            Chain(after, Some(to), now) && after[|after| - 1] == Stay(to, now, None, Some(invite))
  {
    var before := BackfilledStays(stays, park, registered);
    BackfilledChain(stays, park, registered, now);
    ClosedThenOpened(before, CloseStays(before, now), park, to, now, invite);
  }

  lemma ExpireKeepsOne(invites: map<Id, Invite>, d: Id, now: Instant)
    requires OnePendingEach(invites)
    ensures OnePendingEach(Expire(invites, d, now))
  {
  }

  lemma ExpireKeepsFit(db: D.Db, invites: map<Id, Invite>, d: Id, now: Instant)
    requires InvitesFit(db, invites)
    ensures InvitesFit(db, Expire(invites, d, now))
  {
  }

  /** Stays depend on nothing that is said in invitations. */
  lemma InvitesMayChange(o: Office, invites: map<Id, Invite>)
    requires StaysOk(o) && InvitesFit(o.db, invites) && OnePendingEach(invites)
    ensures OfficeOk(o.(invites := invites))
  {
    assert forall d :: StaysOf(o.(invites := invites), d) == StaysOf(o, d);
  }

  lemma ExpireKeeps(o: Office, d: Id)
    requires OfficeOk(o)
    ensures OfficeOk(o.(invites := Expire(o.invites, d, o.db.now)))
  {
    ExpireKeepsOne(o.invites, d, o.db.now);
    ExpireKeepsFit(o.db, o.invites, d, o.db.now);
    InvitesMayChange(o, Expire(o.invites, d, o.db.now));
  }

  lemma InsertKeeps(o: Office, id: Id, i: Invite)
    requires OfficeOk(o) && id !in o.invites
    requires InviteFits(o.db, i) && Dated(i)
    requires forall j :: j in o.invites ==> !PendingFor(o.invites[j], i.driver, i.to)
    ensures OfficeOk(o.(invites := o.invites[id := i]))
  {
  }

  lemma NobodyPending(invites: map<Id, Invite>, d: Id, park: Id)
    requires FindPending(invites, d, park).None?
    ensures forall i :: i in invites ==> !PendingFor(invites[i], d, park)
  {
  }

  lemma WritingKeeps(o: Office, d: Id, to: Id, actor: Id, ttl: nat, id: Id)
    requires OfficeOk(o) && ttl > 0 && d in o.db.drivers && o.db.drivers[d].park != Some(to)
    requires FindPending(o.invites, d, to).None? && id !in o.invites
    ensures OfficeOk(o.(invites := o.invites[id := NewInvite(d, o.db.drivers[d].park, to, actor, o.db.now, ttl)]))
  {
    NobodyPending(o.invites, d, to);
    InsertKeeps(o, id, NewInvite(d, o.db.drivers[d].park, to, actor, o.db.now, ttl));
  }

  lemma InvitingCases(o: Office, d: Id, to: Id, actor: Id, ttl: nat, id: Id)
    requires d in o.db.drivers
    ensures var after, invites := Inviting(o, d, to, actor, ttl, id).0, Expire(o.invites, d, o.db.now);
            || after == o || after == o.(invites := invites)
            || (FindPending(invites, d, to).None? && id !in invites
                && after == o.(invites := invites[id := NewInvite(d, o.db.drivers[d].park, to, actor, o.db.now, ttl)]))
  {
  }

  lemma InvitingKeeps(o: Office, d: Id, to: Id, actor: Id, ttl: nat, id: Id)
    requires OfficeOk(o) && ttl > 0 && d in o.db.drivers && o.db.drivers[d].park != Some(to)
    ensures OfficeOk(Inviting(o, d, to, actor, ttl, id).0)
  {
    var tidy := o.(invites := Expire(o.invites, d, o.db.now));
    ExpireKeeps(o, d);
    InvitingCases(o, d, to, actor, ttl, id);
    if FindPending(tidy.invites, d, to).None? && id !in tidy.invites {
      WritingKeeps(tidy, d, to, actor, ttl, id);
    }
  }

  lemma CreateKeeps(o: Office, actor: Id, found: Option<Id>, ttl: nat, id: Id)
    requires OfficeOk(o) && ttl > 0
    ensures OfficeOk(Create(o, actor, found, ttl, id).0)
  {
    if MayInvite(o, actor, found).None? {
      InvitingKeeps(o, found.value, o.staff[actor], actor, ttl, id);
    }
  }

  lemma AcceptingKeepsStays(o: Office, id: Id, done: Invite)
    requires StaysOk(o) && done.driver in o.db.drivers
    ensures StaysOk(Accepting(o, id, done))
  {
    var d := done.driver;
    TransferExtendsChain(StaysOf(o, d), o.db.drivers[d].park, o.registered[d], done.to, o.db.now, id);
    var after := Accepting(o, id, done);
    forall e | e in after.db.drivers
      ensures Chain(StaysOf(after, e), after.db.drivers[e].park, after.db.now)
    {
      if e != d {
        assert StaysOf(after, e) == StaysOf(o, e);
      }
    }
  }

  lemma CancellingKeepsOne(o: Office, id: Id, done: Invite)
    requires OfficeOk(o) && done.status == Accepted
    ensures OnePendingEach(CancelOthers(o.invites, done.driver, id, o.db.now)[id := done])
  {
    var invites := CancelOthers(o.invites, done.driver, id, o.db.now)[id := done];
    forall i | i in invites && invites[i].status == Pending
      ensures i in o.invites && invites[i] == o.invites[i]
    {
    }
  }

  lemma SupersededFits(db: D.Db, i: Invite, d: Id, now: Instant)
    requires InviteFits(db, i) && Dated(i)
    ensures var after := SupersedeRow(i, d, now);
            Dated(after) && (after.status == Pending ==> after.driver != d && InviteFits(db, after))
  {
  }

  /** After a transfer no other invitation of the driver is pending, so none contradicts his new park. */
  lemma CancellingKeeps(o: Office, id: Id, done: Invite)
    requires OfficeOk(o) && done.status == Accepted && Dated(done)
    ensures var invites := CancelOthers(o.invites, done.driver, id, o.db.now)[id := done];
            forall i :: i in invites ==>
              && Dated(invites[i])
              && (invites[i].status == Pending ==> invites[i].driver != done.driver && InviteFits(o.db, invites[i]))
  {
    forall i | i in o.invites
      ensures var after := SupersedeRow(o.invites[i], done.driver, o.db.now);
              Dated(after) && (after.status == Pending ==> after.driver != done.driver && InviteFits(o.db, after))
    {
      SupersededFits(o.db, o.invites[i], done.driver, o.db.now);
    }
  }

  lemma AcceptKeeps(o: Office, id: Id, done: Invite)
    requires OfficeOk(o) && done.status == Accepted && Dated(done) && done.driver in o.db.drivers
    ensures OfficeOk(Accepting(o, id, done))
  {
    AcceptingKeepsStays(o, id, done);
    CancellingKeepsOne(o, id, done);
    CancellingKeeps(o, id, done);
  }

  lemma CloseOneKeeps(o: Office, id: Id, i: Invite)
    requires OfficeOk(o) && i.status != Pending && Dated(i)
    ensures OfficeOk(Closing(o, id, i))
  {
  }

  lemma RespondKeeps(o: Office, actor: Id, found: Option<Id>, id: Id, answer: InviteStatus)
    requires OfficeOk(o)
    ensures OfficeOk(Respond(o, actor, found, id, answer).0)
  {
    if MayRespond(o, actor, found, id, answer).None? {
      var i, now := o.invites[id], o.db.now;
      assert Dated(i);
      if EnsurePending(i, now).Some? {
        if i.status == Pending {
          CloseOneKeeps(o, id, i.(status := Expired));
        }
      } else if answer == Accepted {
        AcceptKeeps(o, id, i.(status := Accepted, acceptedAt := Some(now)));
      } else {
        CloseOneKeeps(o, id, i.(status := Declined, declinedAt := Some(now)));
        CloseOneKeeps(o, id, i.(status := Cancelled, cancelledAt := Some(now)));
      }
    }
  }

  predicate SameParks(db: D.Db, after: D.Db) {
    && after.now >= db.now && after.drivers.Keys == db.drivers.Keys
    && forall d :: d in db.drivers ==> after.drivers[d].park == db.drivers[d].park
  }

  lemma OrderActionKeepsParks(db: D.Db, a: D.Action)
    requires D.TouchesOrders(a)
    ensures SameParks(db, D.ApplyToOrder(db, a))
  {
  }

  lemma OtherActionKeepsParks(db: D.Db, a: D.Action)
    requires !D.TouchesOrders(a) && !a.ChangePark? && !a.NewDriver?
    ensures SameParks(db, D.ApplyElsewhere(db, a))
  {
  }

  lemma ActionKeepsParks(db: D.Db, a: D.Action)
    requires !a.ChangePark? && !a.NewDriver?
    ensures SameParks(db, D.Apply(db, a))
  {
    if D.TouchesOrders(a) {
      OrderActionKeepsParks(db, a);
    } else {
      OtherActionKeepsParks(db, a);
    }
  }

  lemma ParksKeepFit(db: D.Db, after: D.Db, invites: map<Id, Invite>)
    requires InvitesFit(db, invites) && SameParks(db, after)
    ensures InvitesFit(after, invites)
  {
  }

  lemma ParksKeepStays(o: Office, after: D.Db)
    requires StaysOk(o) && SameParks(o.db, after)
    ensures StaysOk(o.(db := after))
  {
    forall d | d in after.drivers
      ensures Chain(StaysOf(o.(db := after), d), after.drivers[d].park, after.now)
    {
      assert Chain(StaysOf(o, d), o.db.drivers[d].park, o.db.now);
    }
  }

  /** Invitations and stays depend on nothing but the parks of the drivers and the direction of the clock. */
  lemma DriversKeep(o: Office, after: D.Db)
    requires OfficeOk(o) && SameParks(o.db, after)
    ensures OfficeOk(o.(db := after))
  {
    ParksKeepFit(o.db, after, o.invites);
    ParksKeepStays(o, after);
  }

  lemma ActionKeeps(o: Office, a: D.Action)
    requires OfficeOk(o) && !a.ChangePark? && !a.NewDriver?
    ensures OfficeOk(o.(db := D.Apply(o.db, a)))
  {
    ActionKeepsParks(o.db, a);
    DriversKeep(o, D.Apply(o.db, a));
  }

  lemma RegisteringKeepsStays(o: Office, d: Id, user: Id, home: Option<Id>, listed: bool, after: Office)
    requires StaysOk(o) && d !in o.db.drivers && after == Registering(o, d, user, home, listed)
    ensures StaysOk(after)
  {
    forall e | e in after.db.drivers
      ensures Chain(StaysOf(after, e), after.db.drivers[e].park, after.db.now)
    {
      if e != d {
        assert StaysOf(after, e) == StaysOf(o, e) && after.db.drivers[e] == o.db.drivers[e];
      }
    }
  }

  lemma RegisteringKeepsFit(o: Office, d: Id, user: Id, home: Option<Id>, listed: bool, after: Office)
    requires InvitesFit(o.db, o.invites) && d !in o.db.drivers && after == Registering(o, d, user, home, listed)
    ensures InvitesFit(after.db, after.invites)
  {
  }

  lemma RegisterKeeps(o: Office, d: Id, user: Id, home: Option<Id>, listed: bool)
    requires OfficeOk(o) && d !in o.db.drivers
    ensures OfficeOk(Registering(o, d, user, home, listed))
  {
    RegisteringKeepsStays(o, d, user, home, listed, Registering(o, d, user, home, listed));
    RegisteringKeepsFit(o, d, user, home, listed, Registering(o, d, user, home, listed));
  }

  lemma StaffingKeeps(o: Office, staff: map<Id, Id>, parks: map<Id, bool>, owners: map<Id, Option<Id>>, loans: set<(Id, Id)>)
    requires OfficeOk(o)
    ensures OfficeOk(o.(staff := staff, parks := parks, carOwners := owners, carLoans := loans))
  {
    var after := o.(staff := staff, parks := parks, carOwners := owners, carLoans := loans);
    assert forall d :: StaysOf(after, d) == StaysOf(o, d);
  }

  lemma DoKeeps(o: Office, s: Step)
    requires OfficeOk(o)
    ensures OfficeOk(Do(o, s))
  {
    match s {
      case Invitation(actor, found, ttl, id) =>
        if ttl > 0 {
          CreateKeeps(o, actor, found, ttl, id);
        }
      case Answer(actor, found, id, answer) => RespondKeeps(o, actor, found, id, answer);
      case Elsewhere(a) =>
        if !a.ChangePark? && !a.NewDriver? {
          ActionKeeps(o, a);
        }
      case Register(d, user, home, listed) =>
        if d !in o.db.drivers {
          RegisterKeeps(o, d, user, home, listed);
        }
      case _ =>
        var next := Do(o, s);
        StaffingKeeps(o, next.staff, next.parks, next.carOwners, next.carLoans);
    }
  }

  ghost function DoAll(o: Office, steps: seq<Step>): Office
    requires OfficeOk(o)
    decreases |steps|
  {
    if steps == [] then o
    else
      DoKeeps(o, steps[0]);
      DoAll(Do(o, steps[0]), steps[1..])
  }

  lemma {:induction false} RunKeeps(o: Office, steps: seq<Step>)
    requires OfficeOk(o)
    ensures OfficeOk(DoAll(o, steps))
    decreases |steps|
  {
    if steps != [] {
      DoKeeps(o, steps[0]);
      RunKeeps(Do(o, steps[0]), steps[1..]);
    }
  }

  const EMPTY: Office := Office(D.Db(0, map[], map[], map[]), map[], map[], map[], map[], map[], map[], {}, {})

  /** In every reachable state: a pending invitation starts at the driver's current park and ends elsewhere, one is
      pending per driver and park, and each driver's stays form a chain that ends in his park. */
  lemma ReachableIsInOrder(steps: seq<Step>)
    ensures OfficeOk(DoAll(EMPTY, steps))
  {
    RunKeeps(EMPTY, steps);
  }

  lemma FittingMayTransfer(o: Office, i: Invite)
    requires i.status == Pending && InviteFits(o.db, i)
    ensures MayTransfer(o, i) != Some(ContextChanged) && MayTransfer(o, i) != Some(SamePark)
  {
  }

  lemma DecidingNeverFails(o: Office, id: Id, i: Invite, answer: InviteStatus, reply: Result<Invite, InviteError>)
    requires i.driver in o.db.drivers && i.driver in o.registered && InviteFits(o.db, i)
    requires reply == Deciding(o, id, i, answer).1
    ensures reply != Err(ContextChanged) && reply != Err(SamePark)
  {
    if i.status == Pending {
      FittingMayTransfer(o, i);
    }
  }

  /** Two checks of the transfer never fire: the driver cannot have moved, and cannot be in the inviting park. */
  lemma ContextNeverChanges(o: Office, actor: Id, found: Option<Id>, id: Id, answer: InviteStatus)
    requires OfficeOk(o)
    ensures var reply := Respond(o, actor, found, id, answer).1;
            reply != Err(ContextChanged) && reply != Err(SamePark)
  {
    if MayRespond(o, actor, found, id, answer).None? {
      DecidingNeverFails(o, id, o.invites[id], answer, Respond(o, actor, found, id, answer).1);
    }
  }

  /** An acceptance succeeds exactly when the driver answers his own live invitation, the inviting park is active, and
      he is off line without an open order. */
  lemma AcceptedIff(o: Office, actor: Id, found: Option<Id>, id: Id)
    requires OfficeOk(o) && id in o.invites && found == Some(o.invites[id].driver)
    ensures var i := o.invites[id];
            Respond(o, actor, found, id, Accepted).1.Ok? <==>
              && i.status == Pending && o.db.now < i.expiresAt
              && o.db.drivers[i.driver].user == actor
              && i.to in o.parks && o.parks[i.to]
              && D.CanTransfer(o.db, i.driver)
  {
  }

  lemma MoveIsTransfer(o: Office, d: Id, to: Id, invite: Id)
    requires d in o.registered && D.CanTransfer(o.db, d)
    ensures TransferTo(o, d, to, invite).db == D.Transfer(o.db, d, to)
  {
  }

  /** On the driver table, an acceptance is the park change whose guards keep running orders in place. */
  lemma AcceptanceIsATransfer(o: Office, actor: Id, found: Option<Id>, id: Id)
    requires OfficeOk(o) && Respond(o, actor, found, id, Accepted).1.Ok?
    ensures Respond(o, actor, found, id, Accepted).0.db == D.Transfer(o.db, o.invites[id].driver, o.invites[id].to)
    ensures D.CanTransfer(o.db, o.invites[id].driver)
  {
    AcceptedIff(o, actor, found, id);
    MoveIsTransfer(o, o.invites[id].driver, o.invites[id].to, id);
  }

  lemma AnswerKeepsOrders(o: Office, actor: Id, found: Option<Id>, id: Id, answer: InviteStatus)
    requires OfficeOk(o) && R.Consistent(o.db)
    ensures R.Consistent(Respond(o, actor, found, id, answer).0.db)
  {
    if answer == Accepted && Respond(o, actor, found, id, answer).1.Ok? {
      AcceptanceIsATransfer(o, actor, found, id);
      R.TransferKeeps(o.db, o.invites[id].driver, o.invites[id].to);
    } else {
      assert Respond(o, actor, found, id, answer).0.db == o.db;
    }
  }

  lemma CreateKeepsTables(o: Office, actor: Id, found: Option<Id>, ttl: nat, id: Id)
    requires ttl > 0
    ensures Create(o, actor, found, ttl, id).0.db == o.db
  {
  }

  lemma RegisteringIsNewDriver(o: Office, d: Id, user: Id, home: Option<Id>, listed: bool)
    requires d !in o.db.drivers
    ensures Registering(o, d, user, home, listed).db == D.Apply(o.db, D.NewDriver(d, user, home))
  {
  }

  lemma StepKeepsOrders(o: Office, s: Step)
    requires OfficeOk(o) && R.Consistent(o.db)
    ensures R.Consistent(Do(o, s).db)
  {
    match s {
      case Answer(actor, found, id, answer) => AnswerKeepsOrders(o, actor, found, id, answer);
      case Elsewhere(a) => R.ApplyKeeps(o.db, a);
      case Register(d, user, home, listed) =>
        if d !in o.db.drivers {
          RegisteringIsNewDriver(o, d, user, home, listed);
          R.ApplyKeeps(o.db, D.NewDriver(d, user, home));
        }
      case Invitation(actor, found, ttl, id) =>
        if ttl > 0 {
          CreateKeepsTables(o, actor, found, ttl, id);
        }
      case _ =>
    }
  }

  /** Whatever assignments, releases, trips, invitations and transfers interleave, a running order with a driver belongs
      to the current park of that driver, and nobody drives two orders. */
  lemma {:induction false} OrdersStayInTheirPark(o: Office, steps: seq<Step>)
    requires OfficeOk(o) && R.Consistent(o.db)
    ensures R.Consistent(DoAll(o, steps).db)
    decreases |steps|
  {
    if steps != [] {
      StepKeepsOrders(o, steps[0]);
      DoKeeps(o, steps[0]);
      OrdersStayInTheirPark(Do(o, steps[0]), steps[1..]);
    }
  }

  /** Nothing of the driver is left pending, no car is his, and he has an account with the new park. */
  predicate Settled(o: Office, d: Id, park: Id) {
    && (forall i :: i in o.invites && o.invites[i].driver == d ==> o.invites[i].status != Pending)
    && (forall c :: c in o.carOwners ==> o.carOwners[c] != Some(d))
    && (forall loan :: loan in o.carLoans ==> loan.1 != d)
    && (d, park) in o.accounts
  }

  lemma AcceptingSettles(o: Office, id: Id, done: Invite)
    requires done.driver in o.db.drivers && done.driver in o.registered && done.status == Accepted
    ensures Settled(Accepting(o, id, done), done.driver, done.to)
  {
  }

  lemma AcceptanceSettlesEverything(o: Office, actor: Id, found: Option<Id>, id: Id)
    requires OfficeOk(o) && Respond(o, actor, found, id, Accepted).1.Ok?
    ensures Settled(Respond(o, actor, found, id, Accepted).0, o.invites[id].driver, o.invites[id].to)
  {
    AcceptingSettles(o, id, o.invites[id].(status := Accepted, acceptedAt := Some(o.db.now)));
  }

  /** A driver who moved takes no order before he is verified again. */
  lemma TransferredMustBeVerified(o: Office, actor: Id, found: Option<Id>, id: Id, bid: D.Bid)
    requires OfficeOk(o) && Respond(o, actor, found, id, Accepted).1.Ok? && bid.driver == o.invites[id].driver
    ensures !D.CanAssign(Respond(o, actor, found, id, Accepted).0.db, bid)
  {
    AcceptanceIsATransfer(o, actor, found, id);
  }

  predicate KeepsClosed(before: map<Id, Invite>, after: map<Id, Invite>) {
    forall i :: i in before && before[i].status != Pending ==> i in after && after[i] == before[i]
  }

  lemma CreateKeepsClosed(o: Office, actor: Id, found: Option<Id>, ttl: nat, id: Id)
    requires ttl > 0
    ensures KeepsClosed(o.invites, Create(o, actor, found, ttl, id).0.invites)
  {
    if found.Some? {
      assert KeepsClosed(o.invites, Expire(o.invites, found.value, o.db.now));
    }
  }

  lemma AcceptingKeepsClosed(o: Office, id: Id, done: Invite)
    requires id in o.invites && o.invites[id].status == Pending && done.driver in o.db.drivers && done.driver in o.registered
    ensures KeepsClosed(o.invites, Accepting(o, id, done).invites)
  {
  }

  lemma ClosingKeepsClosed(o: Office, id: Id, done: Invite)
    requires id in o.invites && o.invites[id].status == Pending
    ensures KeepsClosed(o.invites, Closing(o, id, done).invites)
  {
  }

  lemma DecidingKeepsClosed(o: Office, id: Id, i: Invite, answer: InviteStatus)
    requires id in o.invites && o.invites[id] == i && i.driver in o.db.drivers && i.driver in o.registered && i.status == Pending
    ensures KeepsClosed(o.invites, Deciding(o, id, i, answer).0.invites)
  {
    var now := o.db.now;
    if EnsurePending(i, now).Some? {
      ClosingKeepsClosed(o, id, i.(status := Expired));
    } else if answer == Accepted {
      AcceptingKeepsClosed(o, id, i.(status := Accepted, acceptedAt := Some(now)));
    } else if answer == Declined {
      ClosingKeepsClosed(o, id, i.(status := Declined, declinedAt := Some(now)));
    } else {
      ClosingKeepsClosed(o, id, i.(status := Cancelled, cancelledAt := Some(now)));
    }
  }

  lemma RespondKeepsClosed(o: Office, actor: Id, found: Option<Id>, id: Id, answer: InviteStatus)
    requires OfficeOk(o)
    ensures KeepsClosed(o.invites, Respond(o, actor, found, id, answer).0.invites)
  {
    if MayRespond(o, actor, found, id, answer).None? && o.invites[id].status == Pending {
      DecidingKeepsClosed(o, id, o.invites[id], answer);
    }
  }

  lemma OtherStepsKeepInvites(o: Office, s: Step)
    requires o.db.drivers.Keys <= o.registered.Keys && !s.Invitation? && !s.Answer?
    ensures Do(o, s).invites == o.invites
  {
    match s {
      case Elsewhere(a) => ElsewhereKeepsInvites(o, D.Apply(o.db, a));
      case Register(d, user, home, listed) =>
      case SetPark(park, active) =>
      case Employ(user, park) =>
      case LendCar(car, owner, borrower) =>
    }
  }

  lemma ElsewhereKeepsInvites(o: Office, after: D.Db)
    ensures o.(db := after).invites == o.invites
  {
  }

  lemma StepKeepsClosed(o: Office, s: Step)
    requires OfficeOk(o)
    ensures KeepsClosed(o.invites, Do(o, s).invites)
  {
    match s {
      case Invitation(actor, found, ttl, id) =>
        if ttl > 0 {
          CreateKeepsClosed(o, actor, found, ttl, id);
        }
      case Answer(actor, found, id, answer) => RespondKeepsClosed(o, actor, found, id, answer);
      case _ => OtherStepsKeepInvites(o, s);
    }
  }

  /** A closed invitation never changes again. */
  lemma {:induction false} ClosedForever(o: Office, steps: seq<Step>, id: Id)
    requires OfficeOk(o) && id in o.invites && o.invites[id].status != Pending
    ensures id in DoAll(o, steps).invites && DoAll(o, steps).invites[id] == o.invites[id]
    decreases |steps|
  {
    if steps != [] {
      StepKeepsClosed(o, steps[0]);
      DoKeeps(o, steps[0]);
      ClosedForever(Do(o, steps[0]), steps[1..], id);
    }
  }

  lemma PendingIsUnique(invites: map<Id, Invite>, d: Id, park: Id, i: Id)
    requires OnePendingEach(invites) && i in invites && PendingFor(invites[i], d, park)
    ensures FindPending(invites, d, park) == Some(i)
  {
  }

  lemma ExpireTwice(invites: map<Id, Invite>, d: Id, now: Instant, id: Id, i: Invite)
    requires i.driver == d ==> i.status != Pending || i.expiresAt > now
    ensures Expire(Expire(invites, d, now), d, now) == Expire(invites, d, now)
    ensures Expire(Expire(invites, d, now)[id := i], d, now) == Expire(invites, d, now)[id := i]
  {
  }

  /** Where a pending invitation stands and nothing more lapses, inviting finds it and changes nothing. */
  lemma InvitingFinds(o: Office, d: Id, to: Id, actor: Id, ttl: nat, id: Id, found: Id)
    requires d in o.db.drivers && OnePendingEach(o.invites) && Expire(o.invites, d, o.db.now) == o.invites
    requires found in o.invites && PendingFor(o.invites[found], d, to)
    ensures Inviting(o, d, to, actor, ttl, id) == (o, Ok(found))
  {
    PendingIsUnique(o.invites, d, to, found);
  }

  lemma WrittenStands(o: Office, d: Id, to: Id, actor: Id, ttl: nat, id: Id)
    requires d in o.db.drivers && ttl > 0
    ensures var invite := NewInvite(d, o.db.drivers[d].park, to, actor, o.db.now, ttl);
            var invites := Expire(o.invites, d, o.db.now);
            && PendingFor(invite, d, to)
            && Expire(invites, d, o.db.now) == invites && Expire(invites[id := invite], d, o.db.now) == invites[id := invite]
  {
    ExpireTwice(o.invites, d, o.db.now, id, NewInvite(d, o.db.drivers[d].park, to, actor, o.db.now, ttl));
  }

  lemma FoundIsPending(invites: map<Id, Invite>, d: Id, park: Id)
    requires FindPending(invites, d, park).Some?
    ensures var i := FindPending(invites, d, park).value;
            i in invites && PendingFor(invites[i], d, park)
  {
  }

  lemma InvitingStands(o: Office, d: Id, to: Id, actor: Id, ttl: nat, id: Id, after: Office, answer: Id)
    requires d in o.db.drivers && ttl > 0 && Inviting(o, d, to, actor, ttl, id) == (after, Ok(answer))
    ensures after == o.(invites := after.invites) && Expire(after.invites, d, o.db.now) == after.invites
    ensures answer in after.invites && PendingFor(after.invites[answer], d, to)
  {
    WrittenStands(o, d, to, actor, ttl, id);
    var invites := Expire(o.invites, d, o.db.now);
    if FindPending(invites, d, to).Some? {
      FoundIsPending(invites, d, to);
    }
  }

  lemma InvitingIsIdempotent(o: Office, d: Id, to: Id, actor: Id, ttl: nat, id: Id, again: Id)
    requires d in o.db.drivers && ttl > 0 && Inviting(o, d, to, actor, ttl, id).1.Ok?
    requires OnePendingEach(Inviting(o, d, to, actor, ttl, id).0.invites)
    ensures var (after, answer) := Inviting(o, d, to, actor, ttl, id);
            Inviting(after, d, to, actor, ttl, again) == (after, answer)
  {
    var (after, answer) := Inviting(o, d, to, actor, ttl, id);
    InvitingStands(o, d, to, actor, ttl, id, after, answer.value);
    InvitingFinds(after, d, to, actor, ttl, again, answer.value);
  }

  /** Inviting again while the first invitation lives returns it and changes nothing. */
  lemma CreateIsIdempotent(o: Office, actor: Id, found: Option<Id>, ttl: nat, id: Id, again: Id)
    requires OfficeOk(o) && ttl > 0 && Create(o, actor, found, ttl, id).1.Ok?
    ensures var (after, answer) := Create(o, actor, found, ttl, id);
            Create(after, actor, found, ttl, again) == (after, answer)
  {
    InvitingKeeps(o, found.value, o.staff[actor], actor, ttl, id);
    InvitingIsIdempotent(o, found.value, o.staff[actor], actor, ttl, id, again);
  }
}
