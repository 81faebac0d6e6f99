/** The relational store behind every controller (AppDbContext): one map
    from identity to row per table, the constraints the database itself
    enforces when changes are saved (foreign keys, unique indexes and the
    CK_Reservation_Dates check), the delete behaviours configured for each
    relationship (cascade, set-null, restrict), and the invariants the
    controllers keep on top of them. */
module Store {
  import opened Common
  import opened MaterialModel
  import opened ReservationModel
  import opened ReservationMaterialModel
  import opened Records

  datatype Db = Db(
    users: map<int, User>,
    roles: map<int, Role>,
    subjects: map<int, Subject>,
    groups: map<int, Group>,
    materials: map<int, Material>,
    reservations: map<int, Reservation>,
    reservationMaterials: map<int, ReservationMaterial>,
    teamMembers: map<int, TeamMember>,
    nextId: int)  // the identity the store assigns to the next inserted row

  /** What an action answers and the store it leaves behind. */
  datatype Outcome = Outcome(response: Response, db: Db)

  // ---------------------------------------------------------------------
  // Constraints enforced by the database

  predicate UserRefsHold(db: Db) {
    forall id :: id in db.users ==> db.users[id].roleId in db.roles
  }

  predicate ReservationRefsHold(db: Db, r: Reservation) {
    && r.userId in db.users
    && (r.subjectId.Some? ==> r.subjectId.value in db.subjects)
    && (r.groupId.Some? ==> r.groupId.value in db.groups)
  }

  predicate ReservationsRefsHold(db: Db) {
    forall id :: id in db.reservations ==> ReservationRefsHold(db, db.reservations[id])
  }

  predicate LineRefsHold(db: Db) {
    forall id :: id in db.reservationMaterials ==>
      && db.reservationMaterials[id].reservationId in db.reservations
      && db.reservationMaterials[id].materialId in db.materials
  }

  predicate MemberRefsHold(db: Db) {
    forall id :: id in db.teamMembers ==>
      db.teamMembers[id].reservationId in db.reservations && db.teamMembers[id].userId in db.users
  }

  predicate ForeignKeysHold(db: Db) {
    UserRefsHold(db) && ReservationsRefsHold(db) && LineRefsHold(db) && MemberRefsHold(db)
  }

  /** The unique index on Subject.Code. */
  predicate UniqueSubjectCodes(db: Db) {
    forall a, b :: a in db.subjects && b in db.subjects && db.subjects[a].code == db.subjects[b].code ==> a == b
  }

  /** The unique index on Group.Code. */
  predicate UniqueGroupCodes(db: Db) {
    forall a, b :: a in db.groups && b in db.groups && db.groups[a].code == db.groups[b].code ==> a == b
  }

  /** The unique index on User.Email. */
  predicate UniqueEmails(db: Db) {
    forall a, b :: a in db.users && b in db.users && db.users[a].email == db.users[b].email ==> a == b
  }

  /** The unique index on Role.Name. */
  predicate UniqueRoleNames(db: Db) {
    forall a, b :: a in db.roles && b in db.roles && db.roles[a].name == db.roles[b].name ==> a == b
  }

  /** The unique index ASP.NET Identity puts on Role.NormalizedName. */
  predicate UniqueNormalizedRoleNames(db: Db) {
    forall a, b :: a in db.roles && b in db.roles && db.roles[a].normalizedName == db.roles[b].normalizedName ==> a == b
  }

  /** The check constraint CK_Reservation_Dates: StartTime < EndTime. */
  predicate DatesOrdered(db: Db) {
    forall id :: id in db.reservations ==> db.reservations[id].startTime < db.reservations[id].endTime
  }

  /** Everything the database refuses to save. */
  predicate Consistent(db: Db) {
    && ForeignKeysHold(db)
    && UniqueSubjectCodes(db) && UniqueGroupCodes(db) && UniqueEmails(db) && UniqueRoleNames(db)
    && UniqueNormalizedRoleNames(db) && DatesOrdered(db)
  }

  /** SaveChanges: the staged state is stored if the database accepts it;
      otherwise the DbUpdateException surfaces as a server error and the
      store keeps its previous state. */
  function Commit(before: Db, after: Db, success: Response): Outcome {
    if Consistent(after) then Outcome(success, after) else Outcome(ServerError, before)
  }

  // ---------------------------------------------------------------------
  // Invariants the entity annotations declare and the controllers keep

  predicate IdsBelow(db: Db) {
    && (forall id :: id in db.roles ==> id < db.nextId)
    && (forall id :: id in db.subjects ==> id < db.nextId)
    && (forall id :: id in db.groups ==> id < db.nextId)
    && (forall id :: id in db.materials ==> id < db.nextId)
    && (forall id :: id in db.reservations ==> id < db.nextId)
    && (forall id :: id in db.reservationMaterials ==> id < db.nextId)
    && (forall id :: id in db.teamMembers ==> id < db.nextId)
  }

  /** No two team members pair the same reservation with the same user. */
  predicate UniqueTeamPairs(db: Db) {
    forall a, b :: a in db.teamMembers && b in db.teamMembers && db.teamMembers[a] == db.teamMembers[b] ==> a == b
  }

  predicate RowsValid(db: Db) {
    && (forall id :: id in db.materials ==> ValidMaterial(db.materials[id]))
    && (forall id :: id in db.reservationMaterials ==> ValidLine(db.reservationMaterials[id]))
    && (forall id :: id in db.reservations ==> ValidReservation(db.reservations[id]))
    && (forall id :: id in db.roles ==> NormalizedRole(db.roles[id]))
  }

  predicate Invariants(db: Db) {
    IdsBelow(db) && UniqueTeamPairs(db) && RowsValid(db)
  }

  /** A store every action starts from and leaves behind. */
  predicate Valid(db: Db) {
    Consistent(db) && Invariants(db)
  }

  /** The available stock of a material; zero for an absent id. */
  function StockOf(db: Db, materialId: int): int {
    if materialId in db.materials then db.materials[materialId].stock else 0
  }

  /** In a valid store no material has negative stock. */
  lemma StockNonNegative(db: Db, materialId: int)
    requires Valid(db)
    ensures StockOf(db, materialId) >= 0
  {
    if materialId in db.materials {
      assert ValidMaterial(db.materials[materialId]);
    }
  }

  // ---------------------------------------------------------------------
  // Delete behaviours

  /** Deleting a reservation cascades to its line-items and its team
      members. The line-items' materials are not touched. */
  function WithoutReservation(db: Db, id: int): Db {
    db.(reservations := db.reservations - {id},
        reservationMaterials := map k | k in db.reservationMaterials && db.reservationMaterials[k].reservationId != id
                                      :: db.reservationMaterials[k],
        teamMembers := map k | k in db.teamMembers && db.teamMembers[k].reservationId != id :: db.teamMembers[k])
  }

  /** The cascade leaves a store the database accepts, drops exactly the
      dependent rows and leaves every material's stock as it was. */
  lemma CascadeReservation(db: Db, id: int)
    requires Valid(db)
    ensures Valid(WithoutReservation(db, id))
    ensures WithoutReservation(db, id).materials == db.materials
    ensures forall k :: k in WithoutReservation(db, id).reservationMaterials <==>
                        k in db.reservationMaterials && db.reservationMaterials[k].reservationId != id
    ensures forall k :: k in WithoutReservation(db, id).teamMembers <==>
                        k in db.teamMembers && db.teamMembers[k].reservationId != id
    ensures var d := WithoutReservation(db, id);
            && d.reservations == db.reservations - {id}
            && (forall k :: k in d.reservationMaterials ==> d.reservationMaterials[k] == db.reservationMaterials[k])
            && (forall k :: k in d.teamMembers ==> d.teamMembers[k] == db.teamMembers[k])
            && d.users == db.users && d.roles == db.roles && d.subjects == db.subjects && d.groups == db.groups
            && d.nextId == db.nextId
  {
    var d := WithoutReservation(db, id);
    assert ReservationsRefsHold(d) by {
      forall r | r in d.reservations ensures ReservationRefsHold(d, d.reservations[r]) {
        assert ReservationRefsHold(db, db.reservations[r]);
      }
    }
    assert UniqueTeamPairs(d) by {
      forall a, b | a in d.teamMembers && b in d.teamMembers && d.teamMembers[a] == d.teamMembers[b]
        ensures a == b
      {
        assert db.teamMembers[a] == db.teamMembers[b];
      }
    }
  }

  /** Deleting a subject sets SubjectId to null on its reservations. */
  function WithoutSubject(db: Db, id: int): Db {
    db.(subjects := db.subjects - {id},
        reservations := map k | k in db.reservations ::
          if db.reservations[k].subjectId == Some(id) then db.reservations[k].(subjectId := None)
          else db.reservations[k])
  }

  lemma SetNullSubject(db: Db, id: int)
    requires Valid(db)
    ensures Valid(WithoutSubject(db, id))
    ensures id !in WithoutSubject(db, id).subjects
    ensures WithoutSubject(db, id).reservations.Keys == db.reservations.Keys
    ensures forall k :: k in db.reservations ==>
      var r, r' := db.reservations[k], WithoutSubject(db, id).reservations[k];
      r' == (if r.subjectId == Some(id) then r.(subjectId := None) else r)
  {
    var d := WithoutSubject(db, id);
    assert ReservationsRefsHold(d) by {
      forall r | r in d.reservations ensures ReservationRefsHold(d, d.reservations[r]) {
        assert ReservationRefsHold(db, db.reservations[r]);
      }
    }
    assert UniqueSubjectCodes(d) by {
      forall a, b | a in d.subjects && b in d.subjects && d.subjects[a].code == d.subjects[b].code
        ensures a == b
      {
        assert db.subjects[a].code == db.subjects[b].code;
      }
    }
    assert DatesOrdered(d) by {
      forall r | r in d.reservations ensures d.reservations[r].startTime < d.reservations[r].endTime {
        assert db.reservations[r].startTime < db.reservations[r].endTime;
      }
    }
    assert RowsValid(d) by {
      forall r | r in d.reservations ensures ValidReservation(d.reservations[r]) {
        assert ValidReservation(db.reservations[r]);
      }
    }
  }

  /** Deleting a group sets GroupId to null on its reservations. */
  function WithoutGroup(db: Db, id: int): Db {
    db.(groups := db.groups - {id},
        reservations := map k | k in db.reservations ::
          if db.reservations[k].groupId == Some(id) then db.reservations[k].(groupId := None)
          else db.reservations[k])
  }

  lemma SetNullGroup(db: Db, id: int)
    requires Valid(db)
    ensures Valid(WithoutGroup(db, id))
    ensures id !in WithoutGroup(db, id).groups
    ensures WithoutGroup(db, id).reservations.Keys == db.reservations.Keys
    ensures forall k :: k in db.reservations ==>
      var r, r' := db.reservations[k], WithoutGroup(db, id).reservations[k];
      r' == (if r.groupId == Some(id) then r.(groupId := None) else r)
  {
    var d := WithoutGroup(db, id);
    assert ReservationsRefsHold(d) by {
      forall r | r in d.reservations ensures ReservationRefsHold(d, d.reservations[r]) {
        assert ReservationRefsHold(db, db.reservations[r]);
      }
    }
    assert UniqueGroupCodes(d) by {
      forall a, b | a in d.groups && b in d.groups && d.groups[a].code == d.groups[b].code
        ensures a == b
      {
        assert db.groups[a].code == db.groups[b].code;
      }
    }
    assert DatesOrdered(d) by {
      forall r | r in d.reservations ensures d.reservations[r].startTime < d.reservations[r].endTime {
        assert db.reservations[r].startTime < db.reservations[r].endTime;
      }
    }
    assert RowsValid(d) by {
      forall r | r in d.reservations ensures ValidReservation(d.reservations[r]) {
        assert ValidReservation(db.reservations[r]);
      }
    }
  }

  /** Deleting a material only removes its row; the Restrict behaviour of
      the line-item relationship is the foreign key check at commit. */
  function WithoutMaterial(db: Db, id: int): Db {
    db.(materials := db.materials - {id})
  }

  /** A material that some line-item still references cannot be deleted:
      the store refuses the change. One that no line references can. */
  lemma RestrictMaterial(db: Db, id: int)
    requires Valid(db)
    ensures Consistent(WithoutMaterial(db, id)) <==>
            forall k :: k in db.reservationMaterials ==> db.reservationMaterials[k].materialId != id
    ensures Invariants(WithoutMaterial(db, id))
  {
    var d := WithoutMaterial(db, id);
    if forall k :: k in db.reservationMaterials ==> db.reservationMaterials[k].materialId != id {
      assert LineRefsHold(d);
    } else {
      var k :| k in db.reservationMaterials && db.reservationMaterials[k].materialId == id;
      assert d.reservationMaterials[k].materialId !in d.materials;
    }
  }

  /** Deleting a user cascades to the user's reservations, and from them to
      their line-items and team members. The Restrict behaviour of the team
      member relationship is the foreign key check at commit. */
  function WithoutUser(db: Db, id: int): Db {
    var owned := set k | k in db.reservations && db.reservations[k].userId == id;
    db.(users := db.users - {id},
        reservations := db.reservations - owned,
        reservationMaterials := map k | k in db.reservationMaterials && db.reservationMaterials[k].reservationId !in owned
                                      :: db.reservationMaterials[k],
        teamMembers := map k | k in db.teamMembers && db.teamMembers[k].reservationId !in owned :: db.teamMembers[k])
  }

  /** Team members of the user that the cascade from the user's own
      reservations does not remove. */
  predicate MemberElsewhere(db: Db, id: int) {
    exists k :: k in db.teamMembers && db.teamMembers[k].userId == id &&
      !(db.teamMembers[k].reservationId in db.reservations &&
        db.reservations[db.teamMembers[k].reservationId].userId == id)
  }

  /** The user delete is refused exactly when the user is still a team
      member of a reservation the cascade does not remove; no reservation of
      the user survives it. */
  lemma CascadeUser(db: Db, id: int)
    requires Valid(db)
    ensures Consistent(WithoutUser(db, id)) <==> !MemberElsewhere(db, id)
    ensures Invariants(WithoutUser(db, id))
    ensures forall k :: k in WithoutUser(db, id).reservations ==> WithoutUser(db, id).reservations[k].userId != id
  {
    CascadeUserKeepsRest(db, id);
    CascadeUserMembers(db, id);
  }

  lemma CascadeUserKeepsRest(db: Db, id: int)
    requires Valid(db)
    ensures var d := WithoutUser(db, id);
      UserRefsHold(d) && ReservationsRefsHold(d) && LineRefsHold(d) &&
      UniqueSubjectCodes(d) && UniqueGroupCodes(d) && UniqueEmails(d) && UniqueRoleNames(d) &&
      UniqueNormalizedRoleNames(d) && DatesOrdered(d) && Invariants(d)
  {
    var d := WithoutUser(db, id);
    assert ReservationsRefsHold(d) by {
      forall r | r in d.reservations ensures ReservationRefsHold(d, d.reservations[r]) {
        assert ReservationRefsHold(db, db.reservations[r]);
      }
    }
    assert UniqueEmails(d) by {
      forall a, b | a in d.users && b in d.users && d.users[a].email == d.users[b].email
        ensures a == b
      {
        assert db.users[a].email == db.users[b].email;
      }
    }
    assert UniqueTeamPairs(d) by {
      forall a, b | a in d.teamMembers && b in d.teamMembers && d.teamMembers[a] == d.teamMembers[b]
        ensures a == b
      {
        assert db.teamMembers[a] == db.teamMembers[b];
      }
    }
  }

  lemma CascadeUserMembers(db: Db, id: int)
    requires Valid(db)
    ensures MemberRefsHold(WithoutUser(db, id)) <==> !MemberElsewhere(db, id)
  {
    var d := WithoutUser(db, id);
    if MemberElsewhere(db, id) {
      var k :| k in db.teamMembers && db.teamMembers[k].userId == id &&
               !(db.teamMembers[k].reservationId in db.reservations &&
                 db.reservations[db.teamMembers[k].reservationId].userId == id);
      assert db.teamMembers[k].reservationId in db.reservations;
      assert k in d.teamMembers && d.teamMembers[k].userId !in d.users;
    } else {
      forall k | k in d.teamMembers
        ensures d.teamMembers[k].reservationId in d.reservations && d.teamMembers[k].userId in d.users
      {
        assert db.teamMembers[k].reservationId in db.reservations;
      }
    }
  }

  // ---------------------------------------------------------------------
  // The database context

  /** The tracked tables of one request's AppDbContext. */
  class AppDbContext {
    var users: map<int, User>
    var roles: map<int, Role>
    var subjects: map<int, Subject>
    var groups: map<int, Group>
    var materials: map<int, Material>
    var reservations: map<int, Reservation>
    var reservationMaterials: map<int, ReservationMaterial>
    var teamMembers: map<int, TeamMember>
    var nextId: int

    function Snapshot(): Db
      reads this
    {
      Db(users, roles, subjects, groups, materials, reservations, reservationMaterials, teamMembers, nextId)
    }

    constructor (db: Db)
      ensures Snapshot() == db
    {
      users, roles, subjects, groups := db.users, db.roles, db.subjects, db.groups;
      materials, reservations := db.materials, db.reservations;
      reservationMaterials, teamMembers, nextId := db.reservationMaterials, db.teamMembers, db.nextId;
    }

    method Load(db: Db)
      modifies this
      ensures Snapshot() == db
    {
      users, roles, subjects, groups := db.users, db.roles, db.subjects, db.groups;
      materials, reservations := db.materials, db.reservations;
      reservationMaterials, teamMembers, nextId := db.reservationMaterials, db.teamMembers, db.nextId;
    }

    /** The identity the database assigns to a row being added. */
    method NextIdentity() returns (id: int)
      modifies this`nextId
      ensures id == old(nextId) && nextId == id + 1
    {
      id := nextId;
      nextId := nextId + 1;
    }

    /** Writes the staged changes if the database accepts them; otherwise
        rolls the tables back to `before`, the state the request started from. */
    method SaveChanges(before: Db) returns (ok: bool)
      modifies this
      ensures ok == Consistent(old(Snapshot()))
      ensures Snapshot() == if ok then old(Snapshot()) else before
    {
      ok := Consistent(Snapshot());
      if !ok {
        Load(before);
      }
    }
  }
}
