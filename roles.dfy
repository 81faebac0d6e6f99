/** Roles (RoleController): a role's name is unique ignoring case; the
    controller compares the upper-cased name with each role's stored
    NormalizedName, and refuses to delete a role some user still has. */
module Roles {
  import opened Common
  import opened Records
  import opened Store

  /** Whether a role other than `except` already has the name, compared
      through the normalized (upper-cased) form. */
  predicate NameTaken(db: Db, name: string, except: Option<int>) {
    exists k :: k in db.roles && db.roles[k].normalizedName == Upper(name) && Some(k) != except
  }

  /** Whether some user has the role. */
  predicate InUse(db: Db, id: int) {
    exists u :: u in db.users && db.users[u].roleId == id
  }

  /** Only the roles table (and the identity counter) differ. */
  predicate RoleFrame(db: Db, d: Db) {
    && d.users == db.users && d.subjects == db.subjects && d.groups == db.groups
    && d.materials == db.materials && d.reservations == db.reservations
    && d.reservationMaterials == db.reservationMaterials && d.teamMembers == db.teamMembers
  }

  /** The row a create or an overwrite stores: the name and its upper-cased form. */
  function NamedRole(name: string): (r: Role)
    ensures NormalizedRole(r) && r.name == name
  {
    Role(name, Upper(name))
  }

  /** POST: refused with a conflict when a role's normalized name equals
      the upper-cased new name. */
  function Post(db: Db, dto: RoleDto): (o: Outcome)
    ensures !o.response.Created? ==> o.db == db
    ensures o.response == BadRequest(InvalidDto) <==> !ValidRoleDto(dto)
    ensures o.response == Conflict <==> ValidRoleDto(dto) && NameTaken(db, dto.name, None)
    ensures o.response.Created? ==>
              && o.response.id == db.nextId && o.db.nextId == db.nextId + 1
              && o.db.roles == db.roles[o.response.id := NamedRole(dto.name)]
              && !NameTaken(db, dto.name, None)
              && RoleFrame(db, o.db)
  {
    if !ValidRoleDto(dto) then Outcome(BadRequest(InvalidDto), db)
    else if NameTaken(db, dto.name, None) then Outcome(Conflict, db)
    else Commit(db, db.(roles := db.roles[db.nextId := NamedRole(dto.name)], nextId := db.nextId + 1), Created(db.nextId))
  }

  /** PUT: refused with a conflict when another role has the name; otherwise
      the name and its normalized form are overwritten. */
  function Put(db: Db, id: int, dto: RoleDto): (o: Outcome)
    ensures o.response != NoContent ==> o.db == db
    ensures !ValidRoleDto(dto) ==> o.response == BadRequest(InvalidDto)
    ensures ValidRoleDto(dto) ==> (o.response == NotFound <==> id !in db.roles)
    ensures ValidRoleDto(dto) && id in db.roles ==> (o.response == Conflict <==> NameTaken(db, dto.name, Some(id)))
    ensures o.response == NoContent ==>
              && id in db.roles
              && o.db.roles == db.roles[id := NamedRole(dto.name)]
              && !NameTaken(db, dto.name, Some(id))
              && RoleFrame(db, o.db) && o.db.nextId == db.nextId
  {
    if !ValidRoleDto(dto) then Outcome(BadRequest(InvalidDto), db)
    else if id !in db.roles then Outcome(NotFound, db)
    else if NameTaken(db, dto.name, Some(id)) then Outcome(Conflict, db)
    else Commit(db, db.(roles := db.roles[id := NamedRole(dto.name)]), NoContent)
  }

  /** DELETE: refused while a user has the role. */
  function Delete(db: Db, id: int): (o: Outcome)
    ensures o.response != NoContent ==> o.db == db
    ensures o.response == NotFound <==> id !in db.roles
    ensures o.response == BadRequest(RoleInUse) <==> id in db.roles && InUse(db, id)
    ensures o.response == NoContent ==> o.db.roles == db.roles - {id} && RoleFrame(db, o.db) && o.db.nextId == db.nextId
  {
    if id !in db.roles then Outcome(NotFound, db)
    else if InUse(db, id) then Outcome(BadRequest(RoleInUse), db)
    else Commit(db, db.(roles := db.roles - {id}), NoContent)
  }

  /** GET by id. */
  function Get(db: Db, id: int): (r: Option<Role>)
    ensures r.Some? <==> id in db.roles
    ensures r.Some? ==> r.value == db.roles[id]
  {
    if id in db.roles then Some(db.roles[id]) else None
  }

  // ---------------------------------------------------------------------
  // The controller's checks keep the store valid

  /** A roles table of normalized rows, unique by name and by normalized
      name, keeps a valid store valid as long as every user's role is still
      there. */
  lemma RoleFrameValid(db: Db, d: Db)
    requires Valid(db) && RoleFrame(db, d) && d.nextId >= db.nextId
    requires forall k :: k in d.roles ==> k < d.nextId && NormalizedRole(d.roles[k])
    requires UniqueRoleNames(d) && UniqueNormalizedRoleNames(d) && UserRefsHold(d)
    ensures Valid(d)
  {
    assert ReservationsRefsHold(d) by {
      forall r | r in d.reservations ensures ReservationRefsHold(d, d.reservations[r]) {
        assert ReservationRefsHold(db, db.reservations[r]);
      }
    }
  }

  /** Names equal as stored are taken, since normalized names are the
      upper-cased names. */
  lemma SameNameTaken(db: Db, k: int, name: string, except: Option<int>)
    requires Valid(db) && k in db.roles && db.roles[k].name == name && Some(k) != except
    ensures NameTaken(db, name, except)
  {
    assert NormalizedRole(db.roles[k]);
  }

  /** The staged insert keeps the store valid when the name is free. */
  lemma InsertValid(db: Db, name: string)
    requires Valid(db) && !NameTaken(db, name, None)
    ensures Valid(db.(roles := db.roles[db.nextId := NamedRole(name)], nextId := db.nextId + 1))
  {
    var d := db.(roles := db.roles[db.nextId := NamedRole(name)], nextId := db.nextId + 1);
    assert UniqueRoleNames(d) by {
      forall a, b | a in d.roles && b in d.roles && d.roles[a].name == d.roles[b].name
        ensures a == b
      {
        if a != db.nextId && b != db.nextId {
          assert db.roles[a].name == db.roles[b].name;
        } else if a != db.nextId {
          SameNameTaken(db, a, name, None);
        } else if b != db.nextId {
          SameNameTaken(db, b, name, None);
        }
      }
    }
    assert UniqueNormalizedRoleNames(d) by {
      assert forall k :: k in db.roles ==> db.roles[k].normalizedName != Upper(name);
      forall a, b | a in d.roles && b in d.roles && d.roles[a].normalizedName == d.roles[b].normalizedName
        ensures a == b
      {
        if a != db.nextId && b != db.nextId {
          assert db.roles[a].normalizedName == db.roles[b].normalizedName;
        }
      }
    }
    assert UserRefsHold(d) by {
      forall u | u in d.users ensures d.users[u].roleId in d.roles {
        assert db.users[u].roleId in db.roles;
      }
    }
    forall k | k in d.roles ensures k < d.nextId && NormalizedRole(d.roles[k]) {
      if k != db.nextId {
        assert NormalizedRole(db.roles[k]);
      }
    }
    RoleFrameValid(db, d);
  }

  /** A create whose name no role has, ignoring case, always succeeds on a
      valid store. */
  lemma PostSucceeds(db: Db, dto: RoleDto)
    requires Valid(db) && ValidRoleDto(dto) && !NameTaken(db, dto.name, None)
    ensures Post(db, dto).response == Created(db.nextId)
    ensures db.nextId !in db.roles
    ensures Valid(Post(db, dto).db)
  {
    InsertValid(db, dto.name);
    assert Post(db, dto) == Outcome(Created(db.nextId), db.(roles := db.roles[db.nextId := NamedRole(dto.name)], nextId := db.nextId + 1));
  }

  lemma PostKeepsValid(db: Db, dto: RoleDto)
    requires Valid(db)
    ensures Valid(Post(db, dto).db)
  {
    if Post(db, dto).response.Created? {
      PostSucceeds(db, dto);
    }
  }

  /** The staged overwrite keeps the store valid when no other role has
      the name. */
  lemma RenameValid(db: Db, id: int, name: string)
    requires Valid(db) && id in db.roles && !NameTaken(db, name, Some(id))
    ensures Valid(db.(roles := db.roles[id := NamedRole(name)]))
  {
    var d := db.(roles := db.roles[id := NamedRole(name)]);
    assert UniqueRoleNames(d) by {
      forall a, b | a in d.roles && b in d.roles && d.roles[a].name == d.roles[b].name
        ensures a == b
      {
        if a != id && b != id {
          assert db.roles[a].name == db.roles[b].name;
        } else if a != id {
          SameNameTaken(db, a, name, Some(id));
        } else if b != id {
          SameNameTaken(db, b, name, Some(id));
        }
      }
    }
    assert UniqueNormalizedRoleNames(d) by {
      assert forall k :: k in db.roles && k != id ==> db.roles[k].normalizedName != Upper(name);
      forall a, b | a in d.roles && b in d.roles && d.roles[a].normalizedName == d.roles[b].normalizedName
        ensures a == b
      {
        if a != id && b != id {
          assert db.roles[a].normalizedName == db.roles[b].normalizedName;
        }
      }
    }
    forall k | k in d.roles ensures k < d.nextId && NormalizedRole(d.roles[k]) {
      if k != id {
        assert NormalizedRole(db.roles[k]);
      }
    }
    RoleFrameValid(db, d);
  }

  /** An overwrite whose name no other role has always succeeds on a valid
      store. */
  lemma PutSucceeds(db: Db, id: int, dto: RoleDto)
    requires Valid(db) && ValidRoleDto(dto) && id in db.roles && !NameTaken(db, dto.name, Some(id))
    ensures Put(db, id, dto).response == NoContent
    ensures Valid(Put(db, id, dto).db)
  {
    RenameValid(db, id, dto.name);
    assert Put(db, id, dto) == Outcome(NoContent, db.(roles := db.roles[id := NamedRole(dto.name)]));
  }

  lemma PutKeepsValid(db: Db, id: int, dto: RoleDto)
    requires Valid(db)
    ensures Valid(Put(db, id, dto).db)
  {
    if Put(db, id, dto).response == NoContent {
      PutSucceeds(db, id, dto);
    }
  }

  /** A role no user has is always deleted from a valid store. */
  lemma DeleteSucceeds(db: Db, id: int)
    requires Valid(db) && id in db.roles && !InUse(db, id)
    ensures Delete(db, id).response == NoContent
    ensures Valid(Delete(db, id).db)
  {
    var d := db.(roles := db.roles - {id});
    assert UserRefsHold(d) by {
      forall u | u in d.users ensures d.users[u].roleId in d.roles {
        assert db.users[u].roleId in db.roles;
      }
    }
    assert UniqueRoleNames(d) by {
      forall a, b | a in d.roles && b in d.roles && d.roles[a].name == d.roles[b].name
        ensures a == b
      {
        assert db.roles[a].name == db.roles[b].name;
      }
    }
    assert UniqueNormalizedRoleNames(d) by {
      forall a, b | a in d.roles && b in d.roles && d.roles[a].normalizedName == d.roles[b].normalizedName
        ensures a == b
      {
        assert db.roles[a].normalizedName == db.roles[b].normalizedName;
      }
    }
    forall k | k in d.roles ensures k < d.nextId && NormalizedRole(d.roles[k]) {
      assert NormalizedRole(db.roles[k]);
    }
    RoleFrameValid(db, d);
  }

  /** A name that differs from a stored role's name only in letter case is
      a conflict. */
  lemma ConflictIgnoresCase(db: Db, k: int, dto: RoleDto)
    requires Valid(db) && ValidRoleDto(dto) && k in db.roles
    requires EqualsIgnoreCase(dto.name, db.roles[k].name)
    ensures Post(db, dto).response == Conflict
  {
    assert NormalizedRole(db.roles[k]);
    assert db.roles[k].normalizedName == Upper(dto.name);
  }

  // ---------------------------------------------------------------------
  // The controller

  class RoleController {
    const context: AppDbContext

    constructor (context: AppDbContext)
      ensures this.context == context
    {
      this.context := context;
    }

    method PostRole(roleDto: RoleDto) returns (r: Response)
      modifies context
      ensures Outcome(r, context.Snapshot()) == Post(old(context.Snapshot()), roleDto)
    {
      if !ValidRoleDto(roleDto) {
        return BadRequest(InvalidDto);
      }
      var normalized := Upper(roleDto.name);
      if exists k :: k in context.roles && context.roles[k].normalizedName == normalized {
        return Conflict;
      }
      var before := context.Snapshot();
      var id := context.NextIdentity();
      context.roles := context.roles[id := Role(roleDto.name, normalized)];
      var saved := context.SaveChanges(before);
      r := if saved then Created(id) else ServerError;
    }

    method PutRole(id: int, roleDto: RoleDto) returns (r: Response)
      modifies context
      ensures Outcome(r, context.Snapshot()) == Put(old(context.Snapshot()), id, roleDto)
    {
      if !ValidRoleDto(roleDto) {
        return BadRequest(InvalidDto);
      }
      if id !in context.roles {
        return NotFound;
      }
      var normalized := Upper(roleDto.name);
      if exists k :: k in context.roles && context.roles[k].normalizedName == normalized && k != id {
        return Conflict;
      }
      var role := context.roles[id].(name := roleDto.name, normalizedName := normalized);
      var before := context.Snapshot();
      context.roles := context.roles[id := role];
      var saved := context.SaveChanges(before);
      r := if saved then NoContent else ServerError;
    }

    method DeleteRole(id: int) returns (r: Response)
      modifies context
      ensures Outcome(r, context.Snapshot()) == Delete(old(context.Snapshot()), id)
    {
      if id !in context.roles {
        return NotFound;
      }
      if exists u :: u in context.users && context.users[u].roleId == id {
        return BadRequest(RoleInUse);
      }
      var before := context.Snapshot();
      context.roles := context.roles - {id};
      var saved := context.SaveChanges(before);
      r := if saved then NoContent else ServerError;
    }

    method GetRole(id: int) returns (role: Option<Role>)
      ensures role == Get(context.Snapshot(), id)
    {
      role := if id in context.roles then Some(context.roles[id]) else None;
    }
  }
}
