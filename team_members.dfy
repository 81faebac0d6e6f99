/** Team members (TeamMemberController): the users attached to a
    reservation besides its owner. The controller keeps each pair of
    reservation and user at most once. */
module TeamMembers {
  import opened Common
  import opened Records
  import opened Store

  /** Whether some team member already pairs the reservation and the user. */
  predicate IsMember(db: Db, reservationId: int, userId: int) {
    exists k :: k in db.teamMembers && db.teamMembers[k] == TeamMember(reservationId, userId)
  }

  /** Only the team member table (and the identity counter) differ. */
  predicate MemberFrame(db: Db, d: Db) {
    && d.users == db.users && d.roles == db.roles && d.subjects == db.subjects && d.groups == db.groups
    && d.materials == db.materials && d.reservations == db.reservations
    && d.reservationMaterials == db.reservationMaterials
  }

  /** POST: the reservation and the user must exist, and the pair must be
      new. */
  function Post(db: Db, reservationId: int, userId: int): (o: Outcome)
    ensures !o.response.Created? ==> o.db == db
    ensures o.response == BadRequest(ReservationMissing) <==> reservationId !in db.reservations
    ensures o.response == BadRequest(UserMissing) <==> reservationId in db.reservations && userId !in db.users
    ensures o.response == Conflict <==>
              reservationId in db.reservations && userId in db.users && IsMember(db, reservationId, userId)
    ensures o.response.Created? ==>
              && o.response.id == db.nextId && o.db.nextId == db.nextId + 1
              && o.db.teamMembers == db.teamMembers[o.response.id := TeamMember(reservationId, userId)]
              && !IsMember(db, reservationId, userId)
              && MemberFrame(db, o.db)
  {
    if reservationId !in db.reservations then Outcome(BadRequest(ReservationMissing), db)
    else if userId !in db.users then Outcome(BadRequest(UserMissing), db)
    else if IsMember(db, reservationId, userId) then Outcome(Conflict, db)
    else
      Commit(db, db.(teamMembers := db.teamMembers[db.nextId := TeamMember(reservationId, userId)], nextId := db.nextId + 1),
             Created(db.nextId))
  }

  /** DELETE: remove the member; nothing depends on it. */
  function Delete(db: Db, id: int): (o: Outcome)
    ensures o.response != NoContent ==> o.db == db
    ensures o.response == NotFound <==> id !in db.teamMembers
    ensures o.response == NoContent ==>
              o.db.teamMembers == db.teamMembers - {id} && MemberFrame(db, o.db) && o.db.nextId == db.nextId
  {
    if id !in db.teamMembers then Outcome(NotFound, db)
    else Commit(db, db.(teamMembers := db.teamMembers - {id}), NoContent)
  }

  /** GET by id. */
  function Get(db: Db, id: int): (r: Option<TeamMember>)
    ensures r.Some? <==> id in db.teamMembers
    ensures r.Some? ==> r.value == db.teamMembers[id]
  {
    if id in db.teamMembers then Some(db.teamMembers[id]) else None
  }

  /** GET by reservation: exactly the members of that reservation. */
  function ByReservation(db: Db, reservationId: int): (r: map<int, TeamMember>)
    ensures forall id :: id in r <==> id in db.teamMembers && db.teamMembers[id].reservationId == reservationId
    ensures forall id :: id in r ==> r[id] == db.teamMembers[id]
  {
    map id | id in db.teamMembers && db.teamMembers[id].reservationId == reservationId :: db.teamMembers[id]
  }

  /** GET by user: exactly the memberships of that user. */
  function ByUser(db: Db, userId: int): (r: map<int, TeamMember>)
    ensures forall id :: id in r <==> id in db.teamMembers && db.teamMembers[id].userId == userId
    ensures forall id :: id in r ==> r[id] == db.teamMembers[id]
  {
    map id | id in db.teamMembers && db.teamMembers[id].userId == userId :: db.teamMembers[id]
  }

  // ---------------------------------------------------------------------
  // Each action keeps the store valid

  /** A new pair of an existing reservation and user is always added to a
      valid store, which then holds each pair exactly once. */
  lemma PostSucceeds(db: Db, reservationId: int, userId: int)
    requires Valid(db) && reservationId in db.reservations && userId in db.users
    requires !IsMember(db, reservationId, userId)
    ensures Post(db, reservationId, userId).response == Created(db.nextId)
    ensures db.nextId !in db.teamMembers
    ensures Valid(Post(db, reservationId, userId).db)
    ensures IsMember(Post(db, reservationId, userId).db, reservationId, userId)
  {
    var d := db.(teamMembers := db.teamMembers[db.nextId := TeamMember(reservationId, userId)], nextId := db.nextId + 1);
    InsertValid(db, TeamMember(reservationId, userId));
    assert Post(db, reservationId, userId) == Outcome(Created(db.nextId), d);
    assert d.teamMembers[db.nextId] == TeamMember(reservationId, userId);
  }

  lemma InsertValid(db: Db, m: TeamMember)
    requires Valid(db) && m.reservationId in db.reservations && m.userId in db.users
    requires !IsMember(db, m.reservationId, m.userId)
    ensures Valid(db.(teamMembers := db.teamMembers[db.nextId := m], nextId := db.nextId + 1))
  {
    var d := db.(teamMembers := db.teamMembers[db.nextId := m], nextId := db.nextId + 1);
    assert ReservationsRefsHold(d) by {
      forall r | r in d.reservations ensures ReservationRefsHold(d, d.reservations[r]) {
        assert ReservationRefsHold(db, db.reservations[r]);
      }
    }
    assert UniqueTeamPairs(d) by {
      forall a, b | a in d.teamMembers && b in d.teamMembers && d.teamMembers[a] == d.teamMembers[b]
        ensures a == b
      {
        if a != db.nextId && b != db.nextId {
          assert db.teamMembers[a] == db.teamMembers[b];
        }
      }
    }
  }

  lemma PostKeepsValid(db: Db, reservationId: int, userId: int)
    requires Valid(db)
    ensures Valid(Post(db, reservationId, userId).db)
  {
    if Post(db, reservationId, userId).response.Created? {
      PostSucceeds(db, reservationId, userId);
    }
  }

  /** Adding the same pair twice: the second request is a conflict and
      changes nothing. */
  lemma {:induction false} SecondPostConflicts(db: Db, reservationId: int, userId: int)
    requires Valid(db) && reservationId in db.reservations && userId in db.users
    requires !IsMember(db, reservationId, userId)
    ensures var first := Post(db, reservationId, userId);
            var second := Post(first.db, reservationId, userId);
            second.response == Conflict && second.db == first.db
  {
    PostSucceeds(db, reservationId, userId);
  }

  /** Deleting an existing member always succeeds on a valid store. */
  lemma DeleteSucceeds(db: Db, id: int)
    requires Valid(db) && id in db.teamMembers
    ensures Delete(db, id).response == NoContent
    ensures Valid(Delete(db, id).db)
  {
    var d := db.(teamMembers := db.teamMembers - {id});
    assert ReservationsRefsHold(d) by {
      forall r | r in d.reservations ensures ReservationRefsHold(d, d.reservations[r]) {
        assert ReservationRefsHold(db, db.reservations[r]);
      }
    }
    assert UniqueTeamPairs(d) by {
      forall a, b | a in d.teamMembers && b in d.teamMembers && d.teamMembers[a] == d.teamMembers[b]
        ensures a == b
      {
        assert db.teamMembers[a] == db.teamMembers[b];
      }
    }
  }

  // ---------------------------------------------------------------------
  // The controller

  class TeamMemberController {
    const context: AppDbContext

    constructor (context: AppDbContext)
      ensures this.context == context
    {
      this.context := context;
    }

    method PostTeamMember(reservationId: int, userId: int) returns (r: Response)
      modifies context
      ensures Outcome(r, context.Snapshot()) == Post(old(context.Snapshot()), reservationId, userId)
    {
      if reservationId !in context.reservations {
        return BadRequest(ReservationMissing);
      }
      if userId !in context.users {
        return BadRequest(UserMissing);
      }
      if exists k :: k in context.teamMembers && context.teamMembers[k] == TeamMember(reservationId, userId) {
        return Conflict;
      }
      var before := context.Snapshot();
      var id := context.NextIdentity();
      context.teamMembers := context.teamMembers[id := TeamMember(reservationId, userId)];
      var saved := context.SaveChanges(before);
      r := if saved then Created(id) else ServerError;
    }

    method DeleteTeamMember(id: int) returns (r: Response)
      modifies context
      ensures Outcome(r, context.Snapshot()) == Delete(old(context.Snapshot()), id)
    {
      if id !in context.teamMembers {
        return NotFound;
      }
      var before := context.Snapshot();
      context.teamMembers := context.teamMembers - {id};
      var saved := context.SaveChanges(before);
      r := if saved then NoContent else ServerError;
    }

    method GetTeamMember(id: int) returns (member: Option<TeamMember>)
      ensures member == Get(context.Snapshot(), id)
    {
      member := if id in context.teamMembers then Some(context.teamMembers[id]) else None;
    }

    method GetTeamMembersByReservation(reservationId: int) returns (members: map<int, TeamMember>)
      ensures members == ByReservation(context.Snapshot(), reservationId)
    {
      members := map id | id in context.teamMembers && context.teamMembers[id].reservationId == reservationId
                   :: context.teamMembers[id];
    }

    method GetReservationsByUser(userId: int) returns (members: map<int, TeamMember>)
      ensures members == ByUser(context.Snapshot(), userId)
    {
      members := map id | id in context.teamMembers && context.teamMembers[id].userId == userId :: context.teamMembers[id];
    }
  }
}
