/** Groups (GroupController): the class groups, each with a code no
    other group shares. The controller checks the code before the
    store's unique index would; deleting a group detaches it from its
    reservations. */
module Groups {
  import opened Common
  import opened Records
  import opened Store

  /** Whether a group other than `except` already uses the code. */
  predicate CodeTaken(db: Db, code: string, except: Option<int>) {
    exists k :: k in db.groups && db.groups[k].code == code && Some(k) != except
  }

  /** Only the groups table (and the identity counter) differ. */
  predicate GroupFrame(db: Db, d: Db) {
    && d.users == db.users && d.roles == db.roles && d.subjects == db.subjects
    && d.materials == db.materials && d.reservations == db.reservations
    && d.reservationMaterials == db.reservationMaterials && d.teamMembers == db.teamMembers
  }

  function FromDto(dto: GroupDto): Group {
    Group(dto.name, dto.code)
  }

  /** POST: refused with a conflict when any group has the code. */
  function Post(db: Db, dto: GroupDto): (o: Outcome)
    ensures !o.response.Created? ==> o.db == db
    ensures o.response == BadRequest(InvalidDto) <==> !ValidGroupDto(dto)
    ensures o.response == Conflict <==> ValidGroupDto(dto) && CodeTaken(db, dto.code, None)
    ensures o.response.Created? ==>
              && o.response.id == db.nextId && o.db.nextId == db.nextId + 1
              && o.db.groups == db.groups[o.response.id := Group(dto.name, dto.code)]
              && !CodeTaken(db, dto.code, None)
              && GroupFrame(db, o.db)
  {
    if !ValidGroupDto(dto) then Outcome(BadRequest(InvalidDto), db)
    else if CodeTaken(db, dto.code, None) then Outcome(Conflict, db)
    else Commit(db, db.(groups := db.groups[db.nextId := FromDto(dto)], nextId := db.nextId + 1), Created(db.nextId))
  }

  /** PUT: refused with a conflict when another group has the code;
      otherwise name and code are overwritten. */
  function Put(db: Db, id: int, dto: GroupDto): (o: Outcome)
    ensures o.response != NoContent ==> o.db == db
    ensures !ValidGroupDto(dto) ==> o.response == BadRequest(InvalidDto)
    ensures ValidGroupDto(dto) ==> (o.response == NotFound <==> id !in db.groups)
    ensures ValidGroupDto(dto) && id in db.groups ==> (o.response == Conflict <==> CodeTaken(db, dto.code, Some(id)))
    ensures o.response == NoContent ==>
              && id in db.groups
              && o.db.groups == db.groups[id := Group(dto.name, dto.code)]
              && !CodeTaken(db, dto.code, Some(id))
              && GroupFrame(db, o.db) && o.db.nextId == db.nextId
  {
    if !ValidGroupDto(dto) then Outcome(BadRequest(InvalidDto), db)
    else if id !in db.groups then Outcome(NotFound, db)
    else if CodeTaken(db, dto.code, Some(id)) then Outcome(Conflict, db)
    else Commit(db, db.(groups := db.groups[id := FromDto(dto)]), NoContent)
  }

  /** DELETE: the group goes and its reservations keep no group. */
  function Delete(db: Db, id: int): (o: Outcome)
    ensures o.response != NoContent ==> o.db == db
    ensures o.response == NotFound <==> id !in db.groups
    ensures o.response == NoContent ==>
              && o.db.groups == db.groups - {id}
              && o.db.reservations.Keys == db.reservations.Keys
              && (forall k :: k in db.reservations ==>
                    o.db.reservations[k] ==
                      if db.reservations[k].groupId == Some(id) then db.reservations[k].(groupId := None)
                      else db.reservations[k])
              && (forall k :: k in o.db.reservations ==> o.db.reservations[k].groupId != Some(id))
              && o.db.users == db.users && o.db.roles == db.roles && o.db.subjects == db.subjects
              && o.db.materials == db.materials
              && o.db.reservationMaterials == db.reservationMaterials && o.db.teamMembers == db.teamMembers
              && o.db.nextId == db.nextId
  {
    if id !in db.groups then Outcome(NotFound, db)
    else Commit(db, WithoutGroup(db, id), NoContent)
  }

  /** GET by id. */
  function Get(db: Db, id: int): (r: Option<Group>)
    ensures r.Some? <==> id in db.groups
    ensures r.Some? ==> r.value == db.groups[id]
  {
    if id in db.groups then Some(db.groups[id]) else None
  }

  // ---------------------------------------------------------------------
  // The controller's checks keep the unique index satisfied

  /** A groups table whose codes are unique keeps a valid store valid. */
  lemma GroupFrameValid(db: Db, d: Db)
    requires Valid(db) && GroupFrame(db, d) && d.nextId >= db.nextId
    requires db.groups.Keys <= d.groups.Keys
    requires forall k :: k in d.groups ==> k < d.nextId
    requires UniqueGroupCodes(d)
    ensures Valid(d)
  {
    assert ReservationsRefsHold(d) by {
      forall r | r in d.reservations ensures ReservationRefsHold(d, d.reservations[r]) {
        assert ReservationRefsHold(db, db.reservations[r]);
      }
    }
  }

  /** A create with a fresh code always succeeds on a valid store. */
  lemma PostSucceeds(db: Db, dto: GroupDto)
    requires Valid(db) && ValidGroupDto(dto) && !CodeTaken(db, dto.code, None)
    ensures Post(db, dto).response == Created(db.nextId)
    ensures db.nextId !in db.groups
    ensures Valid(Post(db, dto).db)
  {
    var d := db.(groups := db.groups[db.nextId := FromDto(dto)], nextId := db.nextId + 1);
    InsertValid(db, FromDto(dto));
    assert Post(db, dto) == Outcome(Created(db.nextId), d);
  }

  lemma InsertValid(db: Db, row: Group)
    requires Valid(db) && !CodeTaken(db, row.code, None)
    ensures Valid(db.(groups := db.groups[db.nextId := row], nextId := db.nextId + 1))
  {
    var d := db.(groups := db.groups[db.nextId := row], nextId := db.nextId + 1);
    assert UniqueGroupCodes(d) by {
      forall a, b | a in d.groups && b in d.groups && d.groups[a].code == d.groups[b].code
        ensures a == b
      {
        if a != db.nextId && b != db.nextId {
          assert db.groups[a].code == db.groups[b].code;
        }
      }
    }
    assert forall k :: k in d.groups ==> k < d.nextId;
    GroupFrameValid(db, d);
  }

  lemma PostKeepsValid(db: Db, dto: GroupDto)
    requires Valid(db)
    ensures Valid(Post(db, dto).db)
  {
    if Post(db, dto).response.Created? {
      PostSucceeds(db, dto);
    }
  }

  /** An overwrite whose code no other group holds always succeeds on a
      valid store: the unique index is never the reason for a failure. */
  lemma PutSucceeds(db: Db, id: int, dto: GroupDto)
    requires Valid(db) && ValidGroupDto(dto) && id in db.groups && !CodeTaken(db, dto.code, Some(id))
    ensures Put(db, id, dto).response == NoContent
    ensures Valid(Put(db, id, dto).db)
  {
    var d := db.(groups := db.groups[id := FromDto(dto)]);
    assert UniqueGroupCodes(d) by {
      forall a, b | a in d.groups && b in d.groups && d.groups[a].code == d.groups[b].code
        ensures a == b
      {
        if a != id && b != id {
          assert db.groups[a].code == db.groups[b].code;
        }
      }
    }
    GroupFrameValid(db, d);
    assert Put(db, id, dto) == Outcome(NoContent, d);
  }

  lemma PutKeepsValid(db: Db, id: int, dto: GroupDto)
    requires Valid(db)
    ensures Valid(Put(db, id, dto).db)
  {
    if Put(db, id, dto).response == NoContent {
      PutSucceeds(db, id, dto);
    }
  }

  /** Deleting an existing group always succeeds on a valid store; every
      reservation survives, those that referenced it without a group. */
  lemma DeleteSucceeds(db: Db, id: int)
    requires Valid(db) && id in db.groups
    ensures Delete(db, id).response == NoContent
    ensures Valid(Delete(db, id).db)
    ensures Delete(db, id).db.reservations.Keys == db.reservations.Keys
    ensures forall k :: k in db.reservations && db.reservations[k].groupId == Some(id) ==>
              Delete(db, id).db.reservations[k] == db.reservations[k].(groupId := None)
  {
    SetNullGroup(db, id);
  }

  // ---------------------------------------------------------------------
  // The controller

  class GroupController {
    const context: AppDbContext

    constructor (context: AppDbContext)
      ensures this.context == context
    {
      this.context := context;
    }

    method PostGroup(createDto: GroupDto) returns (r: Response)
      modifies context
      ensures Outcome(r, context.Snapshot()) == Post(old(context.Snapshot()), createDto)
    {
      if !ValidGroupDto(createDto) {
        return BadRequest(InvalidDto);
      }
      if exists k :: k in context.groups && context.groups[k].code == createDto.code {
        return Conflict;
      }
      var before := context.Snapshot();
      var id := context.NextIdentity();
      context.groups := context.groups[id := Group(createDto.name, createDto.code)];
      var saved := context.SaveChanges(before);
      r := if saved then Created(id) else ServerError;
    }

    method PutGroup(id: int, updateDto: GroupDto) returns (r: Response)
      modifies context
      ensures Outcome(r, context.Snapshot()) == Put(old(context.Snapshot()), id, updateDto)
    {
      if !ValidGroupDto(updateDto) {
        return BadRequest(InvalidDto);
      }
      if id !in context.groups {
        return NotFound;
      }
      if exists k :: k in context.groups && context.groups[k].code == updateDto.code && k != id {
        return Conflict;
      }
      var before := context.Snapshot();
      context.groups := context.groups[id := Group(updateDto.name, updateDto.code)];
      var saved := context.SaveChanges(before);
      r := if saved then NoContent else ServerError;
    }

    method DeleteGroup(id: int) returns (r: Response)
      modifies context
      ensures Outcome(r, context.Snapshot()) == Delete(old(context.Snapshot()), id)
    {
      if id !in context.groups {
        return NotFound;
      }
      var before := context.Snapshot();
      context.Load(WithoutGroup(before, id));
      var saved := context.SaveChanges(before);
      r := if saved then NoContent else ServerError;
    }

    method GetGroup(id: int) returns (group: Option<Group>)
      ensures group == Get(context.Snapshot(), id)
    {
      group := if id in context.groups then Some(context.groups[id]) else None;
    }
  }
}
