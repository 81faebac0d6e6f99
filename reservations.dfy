/** Reservations (ReservationController): a user books a time window,
    optionally for a subject and a group. References are checked before
    saving; the order of the two dates is checked by the controller only
    when both are sent, and otherwise left to the store's check constraint. */
module Reservations {
  import opened Common
  import opened ReservationModel
  import opened Records
  import opened Store

  /** An optional subject reference names an existing subject. */
  predicate SubjectKnown(db: Db, subjectId: Option<int>) {
    subjectId.Some? ==> subjectId.value in db.subjects
  }

  /** An optional group reference names an existing group. */
  predicate GroupKnown(db: Db, groupId: Option<int>) {
    groupId.Some? ==> groupId.value in db.groups
  }

  /** Only the reservations table (and the identity counter) differ. */
  predicate ReservationFrame(db: Db, d: Db) {
    && d.users == db.users && d.roles == db.roles && d.subjects == db.subjects && d.groups == db.groups
    && d.materials == db.materials && d.reservationMaterials == db.reservationMaterials
    && d.teamMembers == db.teamMembers
  }

  /** The row a create adds: the body's fields, status Pending. */
  function NewReservation(dto: CreateReservationDto): Reservation {
    Reservation(dto.userId, dto.subjectId, dto.groupId, dto.startTime, dto.endTime, DefaultStatus, dto.purpose)
  }

  /** POST: the user must exist, a supplied subject or group must exist,
      and the window must start before it ends. */
  function Post(db: Db, dto: CreateReservationDto): (o: Outcome)
    ensures !o.response.Created? ==> o.db == db
    ensures o.response == BadRequest(InvalidDto) <==> !ValidCreateReservationDto(dto)
    ensures o.response == BadRequest(UserMissing) <==>
              ValidCreateReservationDto(dto) && dto.userId !in db.users
    ensures o.response == BadRequest(SubjectMissing) <==>
              ValidCreateReservationDto(dto) && dto.userId in db.users && !SubjectKnown(db, dto.subjectId)
    ensures o.response == BadRequest(GroupMissing) <==>
              ValidCreateReservationDto(dto) && dto.userId in db.users && SubjectKnown(db, dto.subjectId) &&
              !GroupKnown(db, dto.groupId)
    ensures o.response == BadRequest(StartNotBeforeEnd) <==>
              ValidCreateReservationDto(dto) && dto.userId in db.users && SubjectKnown(db, dto.subjectId) &&
              GroupKnown(db, dto.groupId) && dto.startTime >= dto.endTime
    ensures o.response.Created? ==> o.response.id in o.db.reservations
    ensures o.response.Created? ==>
              var r := o.db.reservations[o.response.id];
              && o.response.id == db.nextId && o.db.nextId == db.nextId + 1
              && o.db.reservations == db.reservations[o.response.id := r]
              && r.userId == dto.userId && r.subjectId == dto.subjectId && r.groupId == dto.groupId
              && r.startTime == dto.startTime && r.endTime == dto.endTime && r.purpose == dto.purpose
              && r.status == Pending
              && r.startTime < r.endTime && ReservationRefsHold(db, r)
              && ReservationFrame(db, o.db)
  {
    if !ValidCreateReservationDto(dto) then Outcome(BadRequest(InvalidDto), db)
    else if dto.userId !in db.users then Outcome(BadRequest(UserMissing), db)
    else if !SubjectKnown(db, dto.subjectId) then Outcome(BadRequest(SubjectMissing), db)
    else if !GroupKnown(db, dto.groupId) then Outcome(BadRequest(GroupMissing), db)
    else if dto.startTime >= dto.endTime then Outcome(BadRequest(StartNotBeforeEnd), db)
    else
      Commit(db, db.(reservations := db.reservations[db.nextId := NewReservation(dto)], nextId := db.nextId + 1),
             Created(db.nextId))
  }

  /** The status an update asks for, when it supplies one that parses. */
  function RequestedStatus(dto: UpdateReservationDto): Option<ReservationStatus> {
    if Supplied(dto.status) then ParseStatus(dto.status.value) else None
  }

  /** A stored reservation with an update's fields applied: each field the
      body carries replaces the stored one (the purpose and the status only
      when non-empty); the user never changes. */
  function Merge(r: Reservation, dto: UpdateReservationDto): Reservation {
    Reservation(
      r.userId,
      if dto.subjectId.Some? then dto.subjectId else r.subjectId,
      if dto.groupId.Some? then dto.groupId else r.groupId,
      if dto.startTime.Some? then dto.startTime.value else r.startTime,
      if dto.endTime.Some? then dto.endTime.value else r.endTime,
      if RequestedStatus(dto).Some? then RequestedStatus(dto).value else r.status,
      if Supplied(dto.purpose) then dto.purpose.value else r.purpose)
  }

  /** The checks the controller itself makes before applying an update. */
  predicate UpdateAccepted(db: Db, id: int, dto: UpdateReservationDto) {
    && ValidUpdateReservationDto(dto) && id in db.reservations
    && SubjectKnown(db, dto.subjectId) && GroupKnown(db, dto.groupId)
    && !(dto.startTime.Some? && dto.endTime.Some? && dto.startTime.value >= dto.endTime.value)
    && !(Supplied(dto.status) && ParseStatus(dto.status.value).None?)
  }

  /** PUT: a partial update. The dates are compared only when both are
      sent; a single new bound that crosses the stored one reaches the
      store, whose check constraint refuses it. */
  function Put(db: Db, id: int, dto: UpdateReservationDto): (o: Outcome)
    ensures o.response != NoContent ==> o.db == db
    ensures !ValidUpdateReservationDto(dto) ==> o.response == BadRequest(InvalidDto)
    ensures ValidUpdateReservationDto(dto) && id !in db.reservations ==> o.response == NotFound
    ensures (ValidUpdateReservationDto(dto) && id in db.reservations && !SubjectKnown(db, dto.subjectId))
              ==> o.response == BadRequest(SubjectMissing)
    ensures (ValidUpdateReservationDto(dto) && id in db.reservations && SubjectKnown(db, dto.subjectId) &&
             !GroupKnown(db, dto.groupId))
              ==> o.response == BadRequest(GroupMissing)
    ensures (ValidUpdateReservationDto(dto) && id in db.reservations && SubjectKnown(db, dto.subjectId) &&
             GroupKnown(db, dto.groupId) && dto.startTime.Some? && dto.endTime.Some? &&
             dto.startTime.value >= dto.endTime.value)
              ==> o.response == BadRequest(StartNotBeforeEnd)
    ensures (ValidUpdateReservationDto(dto) && id in db.reservations && SubjectKnown(db, dto.subjectId) &&
             GroupKnown(db, dto.groupId) && !(dto.startTime.Some? && dto.endTime.Some? && dto.startTime.value >= dto.endTime.value) &&
             Supplied(dto.status) && ParseStatus(dto.status.value).None?)
              ==> o.response == BadRequest(InvalidStatus)
    ensures UpdateAccepted(db, id, dto) ==>
              o.response == NoContent || o.response == ServerError
    ensures o.response == NoContent ==> id in db.reservations && id in o.db.reservations
    ensures o.response == NoContent ==>
              var r, r' := db.reservations[id], o.db.reservations[id];
              && o.db.reservations == db.reservations[id := r']
              && r'.userId == r.userId
              && (dto.subjectId.Some? ==> r'.subjectId == dto.subjectId) && (dto.subjectId.None? ==> r'.subjectId == r.subjectId)
              && (dto.groupId.Some? ==> r'.groupId == dto.groupId) && (dto.groupId.None? ==> r'.groupId == r.groupId)
              && r'.startTime == (if dto.startTime.Some? then dto.startTime.value else r.startTime)
              && r'.endTime == (if dto.endTime.Some? then dto.endTime.value else r.endTime)
              && r'.purpose == (if Supplied(dto.purpose) then dto.purpose.value else r.purpose)
              && r'.status == (if Supplied(dto.status) then ParseStatus(dto.status.value).value else r.status)
              && r'.startTime < r'.endTime
              && ReservationFrame(db, o.db) && o.db.nextId == db.nextId
  {
    if !ValidUpdateReservationDto(dto) then Outcome(BadRequest(InvalidDto), db)
    else if id !in db.reservations then Outcome(NotFound, db)
    else if !SubjectKnown(db, dto.subjectId) then Outcome(BadRequest(SubjectMissing), db)
    else if !GroupKnown(db, dto.groupId) then Outcome(BadRequest(GroupMissing), db)
    else if dto.startTime.Some? && dto.endTime.Some? && dto.startTime.value >= dto.endTime.value then
      Outcome(BadRequest(StartNotBeforeEnd), db)
    else if Supplied(dto.status) && ParseStatus(dto.status.value).None? then
      Outcome(BadRequest(InvalidStatus), db)
    else
      Commit(db, db.(reservations := db.reservations[id := Merge(db.reservations[id], dto)]), NoContent)
  }

  /** DELETE: the reservation goes, and with it its line-items and team
      members; no material's stock changes. */
  function Delete(db: Db, id: int): (o: Outcome)
    ensures o.response != NoContent ==> o.db == db
    ensures o.response == NotFound <==> id !in db.reservations
    ensures o.response == NoContent ==>
              && id !in o.db.reservations
              && o.db.reservations == db.reservations - {id}
              && (forall k :: k in o.db.reservationMaterials <==>
                    k in db.reservationMaterials && db.reservationMaterials[k].reservationId != id)
              && (forall k :: k in o.db.teamMembers <==>
                    k in db.teamMembers && db.teamMembers[k].reservationId != id)
              && (forall k :: k in o.db.reservationMaterials ==> o.db.reservationMaterials[k] == db.reservationMaterials[k])
              && (forall k :: k in o.db.teamMembers ==> o.db.teamMembers[k] == db.teamMembers[k])
              && o.db.materials == db.materials
              && o.db.users == db.users && o.db.roles == db.roles && o.db.subjects == db.subjects
              && o.db.groups == db.groups && o.db.nextId == db.nextId
  {
    if id !in db.reservations then Outcome(NotFound, db)
    else Commit(db, WithoutReservation(db, id), NoContent)
  }

  /** GET by id. */
  function Get(db: Db, id: int): (r: Option<Reservation>)
    ensures r.Some? <==> id in db.reservations
    ensures r.Some? ==> r.value == db.reservations[id]
  {
    if id in db.reservations then Some(db.reservations[id]) else None
  }

  /** GET by user: exactly that user's reservations, as stored. */
  function ByUser(db: Db, userId: int): (r: map<int, Reservation>)
    ensures forall id :: id in r <==> id in db.reservations && db.reservations[id].userId == userId
    ensures forall id :: id in r ==> r[id] == db.reservations[id]
  {
    map id | id in db.reservations && db.reservations[id].userId == userId :: db.reservations[id]
  }

  // ---------------------------------------------------------------------
  // Each action keeps the store valid

  /** A create that passes the controller's checks always succeeds on a
      valid store, under an identity no reservation holds yet. */
  lemma PostSucceeds(db: Db, dto: CreateReservationDto)
    requires Valid(db) && ValidCreateReservationDto(dto)
    requires dto.userId in db.users && SubjectKnown(db, dto.subjectId) && GroupKnown(db, dto.groupId)
    requires dto.startTime < dto.endTime
    ensures Post(db, dto).response == Created(db.nextId)
    ensures db.nextId !in db.reservations
    ensures Valid(Post(db, dto).db)
  {
    var r := NewReservation(dto);
    assert ReservationRefsHold(db, r) && ValidReservation(r);
    InsertValid(db, r);
    assert Post(db, dto) ==
           Outcome(Created(db.nextId), db.(reservations := db.reservations[db.nextId := r], nextId := db.nextId + 1));
  }

  /** Adding a reservation whose references exist and whose window is
      ordered, under the next identity, keeps a valid store valid. */
  lemma InsertValid(db: Db, r: Reservation)
    requires Valid(db) && ReservationRefsHold(db, r) && ValidReservation(r) && r.startTime < r.endTime
    ensures Valid(db.(reservations := db.reservations[db.nextId := r], nextId := db.nextId + 1))
  {
    var d := db.(reservations := db.reservations[db.nextId := r], nextId := db.nextId + 1);
    assert ReservationsRefsHold(d) by {
      forall k | k in d.reservations ensures ReservationRefsHold(d, d.reservations[k]) {
        if k != db.nextId {
          assert ReservationRefsHold(db, db.reservations[k]);
        }
      }
    }
    assert MemberRefsHold(d) by {
      forall k | k in d.teamMembers ensures d.teamMembers[k].reservationId in d.reservations {
        assert db.teamMembers[k].reservationId in db.reservations;
      }
    }
    assert LineRefsHold(d) by {
      forall k | k in d.reservationMaterials ensures d.reservationMaterials[k].reservationId in d.reservations {
        assert db.reservationMaterials[k].reservationId in db.reservations;
      }
    }
  }

  lemma PostKeepsValid(db: Db, dto: CreateReservationDto)
    requires Valid(db)
    ensures Valid(Post(db, dto).db)
  {
    if Post(db, dto).response.Created? {
      PostSucceeds(db, dto);
    }
  }

  /** An update the controller accepts is saved exactly when the merged
      window still starts before it ends; otherwise the store refuses it. */
  lemma PutSavedIffOrdered(db: Db, id: int, dto: UpdateReservationDto)
    requires Valid(db) && UpdateAccepted(db, id, dto)
    ensures Put(db, id, dto).response == NoContent <==>
              Merge(db.reservations[id], dto).startTime < Merge(db.reservations[id], dto).endTime
    ensures Valid(Put(db, id, dto).db)
  {
    var m := Merge(db.reservations[id], dto);
    var d := db.(reservations := db.reservations[id := m]);
    if m.startTime < m.endTime {
      assert ReservationsRefsHold(d) by {
        forall r | r in d.reservations ensures ReservationRefsHold(d, d.reservations[r]) {
          if r != id {
            assert ReservationRefsHold(db, db.reservations[r]);
          } else {
            assert ReservationRefsHold(db, db.reservations[id]);
          }
        }
      }
      assert ValidReservation(db.reservations[id]);
    } else {
      assert !DatesOrdered(d) by {
        assert d.reservations[id] == m;
      }
    }
  }

  lemma PutKeepsValid(db: Db, id: int, dto: UpdateReservationDto)
    requires Valid(db)
    ensures Valid(Put(db, id, dto).db)
  {
    if UpdateAccepted(db, id, dto) {
      PutSavedIffOrdered(db, id, dto);
    }
  }

  /** Deleting an existing reservation always succeeds on a valid store. */
  lemma DeleteSucceeds(db: Db, id: int)
    requires Valid(db) && id in db.reservations
    ensures Delete(db, id).response == NoContent
    ensures Valid(Delete(db, id).db)
  {
    CascadeReservation(db, id);
  }

  /** A single new end that falls before the stored start is not caught by
      the controller and ends in a server error, with nothing changed. */
  lemma SingleBoundIsRefusedByStore(db: Db, id: int, newEnd: int)
    requires Valid(db) && id in db.reservations && newEnd <= db.reservations[id].startTime
    ensures var o := Put(db, id, UpdateReservationDto(None, None, None, Some(newEnd), None, None));
            o.response == ServerError && o.db == db
  {
    PutSavedIffOrdered(db, id, UpdateReservationDto(None, None, None, Some(newEnd), None, None));
  }

  /** The status is free: any of the four names, in any letter case,
      replaces any stored status, and nothing else about the reservation
      changes. */
  lemma AnyStatusReplacesAny(db: Db, id: int, st: ReservationStatus, name: string)
    requires Valid(db) && id in db.reservations && EqualsIgnoreCase(name, StatusName(st))
    ensures var o := Put(db, id, UpdateReservationDto(None, None, None, None, Some(name), None));
            o.response == NoContent && o.db.reservations == db.reservations[id := db.reservations[id].(status := st)]
  {
    var dto := UpdateReservationDto(None, None, None, None, Some(name), None);
    assert |StatusName(st)| > 0;
    assert |name| > 0;
    assert ParseStatus(name) == Some(st);
    assert Merge(db.reservations[id], dto) == db.reservations[id].(status := st);
    PutSavedIffOrdered(db, id, dto);
  }

  // ---------------------------------------------------------------------
  // The controller

  class ReservationController {
    const context: AppDbContext

    constructor (context: AppDbContext)
      ensures this.context == context
    {
      this.context := context;
    }

    method PostReservation(createDto: CreateReservationDto) returns (r: Response)
      modifies context
      ensures Outcome(r, context.Snapshot()) == Post(old(context.Snapshot()), createDto)
    {
      if !ValidCreateReservationDto(createDto) {
        return BadRequest(InvalidDto);
      }
      if createDto.userId !in context.users {
        return BadRequest(UserMissing);
      }
      if createDto.subjectId.Some? && createDto.subjectId.value !in context.subjects {
        return BadRequest(SubjectMissing);
      }
      if createDto.groupId.Some? && createDto.groupId.value !in context.groups {
        return BadRequest(GroupMissing);
      }
      if createDto.startTime >= createDto.endTime {
        return BadRequest(StartNotBeforeEnd);
      }
      var before := context.Snapshot();
      var id := context.NextIdentity();
      var reservation := Reservation(createDto.userId, createDto.subjectId, createDto.groupId,
                                     createDto.startTime, createDto.endTime, Pending, createDto.purpose);
      context.reservations := context.reservations[id := reservation];
      var saved := context.SaveChanges(before);
      r := if saved then Created(id) else ServerError;
    }

    method PutReservation(id: int, updateDto: UpdateReservationDto) returns (r: Response)
      modifies context
      ensures Outcome(r, context.Snapshot()) == Put(old(context.Snapshot()), id, updateDto)
    {
      if !ValidUpdateReservationDto(updateDto) {
        return BadRequest(InvalidDto);
      }
      if id !in context.reservations {
        return NotFound;
      }
      var reservation := context.reservations[id];
      if updateDto.subjectId.Some? && updateDto.subjectId.value !in context.subjects {
        return BadRequest(SubjectMissing);
      }
      if updateDto.groupId.Some? && updateDto.groupId.value !in context.groups {
        return BadRequest(GroupMissing);
      }
      if updateDto.startTime.Some? && updateDto.endTime.Some? && updateDto.startTime.value >= updateDto.endTime.value {
        return BadRequest(StartNotBeforeEnd);
      }
      if updateDto.subjectId.Some? {
        reservation := reservation.(subjectId := updateDto.subjectId);
      }
      if updateDto.groupId.Some? {
        reservation := reservation.(groupId := updateDto.groupId);
      }
      if updateDto.startTime.Some? {
        reservation := reservation.(startTime := updateDto.startTime.value);
      }
      if updateDto.endTime.Some? {
        reservation := reservation.(endTime := updateDto.endTime.value);
      }
      if Supplied(updateDto.purpose) {
        reservation := reservation.(purpose := updateDto.purpose.value);
      }
      if Supplied(updateDto.status) {
        var status := ParseStatus(updateDto.status.value);
        if status.None? {
          return BadRequest(InvalidStatus);
        }
        reservation := reservation.(status := status.value);
      }
      var before := context.Snapshot();
      assert reservation == Merge(before.reservations[id], updateDto);
      context.reservations := context.reservations[id := reservation];
      var saved := context.SaveChanges(before);
      r := if saved then NoContent else ServerError;
    }

    method DeleteReservation(id: int) returns (r: Response)
      modifies context
      ensures Outcome(r, context.Snapshot()) == Delete(old(context.Snapshot()), id)
    {
      if id !in context.reservations {
        return NotFound;
      }
      var before := context.Snapshot();
      context.Load(WithoutReservation(before, id));
      var saved := context.SaveChanges(before);
      r := if saved then NoContent else ServerError;
    }

    method GetReservation(id: int) returns (reservation: Option<Reservation>)
      ensures reservation == Get(context.Snapshot(), id)
    {
      reservation := if id in context.reservations then Some(context.reservations[id]) else None;
    }

    method GetUserReservations(userId: int) returns (reservations: map<int, Reservation>)
      ensures reservations == ByUser(context.Snapshot(), userId)
    {
      reservations := map id | id in context.reservations && context.reservations[id].userId == userId
                        :: context.reservations[id];
    }
  }
}
