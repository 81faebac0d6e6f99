/** Subjects (SubjectController): a catalogue of courses, each with a code
    no other subject shares. The controller checks the code before the
    store's unique index would; deleting a subject detaches it from its
    reservations. */
module Subjects {
  import opened Common
  import opened Records
  import opened Store

  /** Whether a subject other than `except` already uses the code. */
  predicate CodeTaken(db: Db, code: string, except: Option<int>) {
    exists k :: k in db.subjects && db.subjects[k].code == code && Some(k) != except
  }

  /** Only the subjects table (and the identity counter) differ. */
  predicate SubjectFrame(db: Db, d: Db) {
    && d.users == db.users && d.roles == db.roles && d.groups == db.groups
    && d.materials == db.materials && d.reservations == db.reservations
    && d.reservationMaterials == db.reservationMaterials && d.teamMembers == db.teamMembers
  }

  function FromDto(dto: SubjectDto): Subject {
    Subject(dto.name, dto.code, dto.description)
  }

  /** POST: refused with a conflict when any subject has the code. */
  function Post(db: Db, dto: SubjectDto): (o: Outcome)
    ensures !o.response.Created? ==> o.db == db
    ensures o.response == BadRequest(InvalidDto) <==> !ValidSubjectDto(dto)
    ensures o.response == Conflict <==> ValidSubjectDto(dto) && CodeTaken(db, dto.code, None)
    ensures o.response.Created? ==>
              && o.response.id == db.nextId && o.db.nextId == db.nextId + 1
              && o.db.subjects == db.subjects[o.response.id := Subject(dto.name, dto.code, dto.description)]
              && !CodeTaken(db, dto.code, None)
              && SubjectFrame(db, o.db)
  {
    if !ValidSubjectDto(dto) then Outcome(BadRequest(InvalidDto), db)
    else if CodeTaken(db, dto.code, None) then Outcome(Conflict, db)
    else Commit(db, db.(subjects := db.subjects[db.nextId := FromDto(dto)], nextId := db.nextId + 1), Created(db.nextId))
  }

  /** PUT: refused with a conflict when another subject has the code;
      otherwise name, code and description are overwritten. */
  function Put(db: Db, id: int, dto: SubjectDto): (o: Outcome)
    ensures o.response != NoContent ==> o.db == db
    ensures !ValidSubjectDto(dto) ==> o.response == BadRequest(InvalidDto)
    ensures ValidSubjectDto(dto) ==> (o.response == NotFound <==> id !in db.subjects)
    ensures ValidSubjectDto(dto) && id in db.subjects ==> (o.response == Conflict <==> CodeTaken(db, dto.code, Some(id)))
    ensures o.response == NoContent ==>
              && id in db.subjects
              && o.db.subjects == db.subjects[id := Subject(dto.name, dto.code, dto.description)]
              && !CodeTaken(db, dto.code, Some(id))
              && SubjectFrame(db, o.db) && o.db.nextId == db.nextId
  {
    if !ValidSubjectDto(dto) then Outcome(BadRequest(InvalidDto), db)
    else if id !in db.subjects then Outcome(NotFound, db)
    else if CodeTaken(db, dto.code, Some(id)) then Outcome(Conflict, db)
    else Commit(db, db.(subjects := db.subjects[id := FromDto(dto)]), NoContent)
  }

  /** DELETE: the subject goes and its reservations keep no subject. */
  function Delete(db: Db, id: int): (o: Outcome)
    ensures o.response != NoContent ==> o.db == db
    ensures o.response == NotFound <==> id !in db.subjects
    ensures o.response == NoContent ==>
              && o.db.subjects == db.subjects - {id}
              && o.db.reservations.Keys == db.reservations.Keys
              && (forall k :: k in db.reservations ==>
                    o.db.reservations[k] ==
                      if db.reservations[k].subjectId == Some(id) then db.reservations[k].(subjectId := None)
                      else db.reservations[k])
              && (forall k :: k in o.db.reservations ==> o.db.reservations[k].subjectId != Some(id))
              && o.db.users == db.users && o.db.roles == db.roles && o.db.groups == db.groups
              && o.db.materials == db.materials
              && o.db.reservationMaterials == db.reservationMaterials && o.db.teamMembers == db.teamMembers
              && o.db.nextId == db.nextId
  {
    if id !in db.subjects then Outcome(NotFound, db)
    else Commit(db, WithoutSubject(db, id), NoContent)
  }

  /** GET by id. */
  function Get(db: Db, id: int): (r: Option<Subject>)
    ensures r.Some? <==> id in db.subjects
    ensures r.Some? ==> r.value == db.subjects[id]
  {
    if id in db.subjects then Some(db.subjects[id]) else None
  }

  // ---------------------------------------------------------------------
  // The controller's checks keep the unique index satisfied

  /** A subjects table whose codes are unique keeps a valid store valid. */
  lemma SubjectFrameValid(db: Db, d: Db)
    requires Valid(db) && SubjectFrame(db, d) && d.nextId >= db.nextId
    requires db.subjects.Keys <= d.subjects.Keys
    requires forall k :: k in d.subjects ==> k < d.nextId
    requires UniqueSubjectCodes(d)
    ensures Valid(d)
  {
    assert ReservationsRefsHold(d) by {
      forall r | r in d.reservations ensures ReservationRefsHold(d, d.reservations[r]) {
        assert ReservationRefsHold(db, db.reservations[r]);
      }
    }
  }

  /** A create with a fresh code always succeeds on a valid store. */
  lemma PostSucceeds(db: Db, dto: SubjectDto)
    requires Valid(db) && ValidSubjectDto(dto) && !CodeTaken(db, dto.code, None)
    ensures Post(db, dto).response == Created(db.nextId)
    ensures db.nextId !in db.subjects
    ensures Valid(Post(db, dto).db)
  {
    var d := db.(subjects := db.subjects[db.nextId := FromDto(dto)], nextId := db.nextId + 1);
    InsertValid(db, FromDto(dto));
    assert Post(db, dto) == Outcome(Created(db.nextId), d);
  }

  lemma InsertValid(db: Db, row: Subject)
    requires Valid(db) && !CodeTaken(db, row.code, None)
    ensures Valid(db.(subjects := db.subjects[db.nextId := row], nextId := db.nextId + 1))
  {
    var d := db.(subjects := db.subjects[db.nextId := row], nextId := db.nextId + 1);
    assert UniqueSubjectCodes(d) by {
      forall a, b | a in d.subjects && b in d.subjects && d.subjects[a].code == d.subjects[b].code
        ensures a == b
      {
        if a != db.nextId && b != db.nextId {
          assert db.subjects[a].code == db.subjects[b].code;
        }
      }
    }
    assert forall k :: k in d.subjects ==> k < d.nextId;
    SubjectFrameValid(db, d);
  }

  lemma PostKeepsValid(db: Db, dto: SubjectDto)
    requires Valid(db)
    ensures Valid(Post(db, dto).db)
  {
    if Post(db, dto).response.Created? {
      PostSucceeds(db, dto);
    }
  }

  /** An overwrite whose code no other subject holds always succeeds on a
      valid store: the unique index is never the reason for a failure. */
  lemma PutSucceeds(db: Db, id: int, dto: SubjectDto)
    requires Valid(db) && ValidSubjectDto(dto) && id in db.subjects && !CodeTaken(db, dto.code, Some(id))
    ensures Put(db, id, dto).response == NoContent
    ensures Valid(Put(db, id, dto).db)
  {
    var d := db.(subjects := db.subjects[id := FromDto(dto)]);
    assert UniqueSubjectCodes(d) by {
      forall a, b | a in d.subjects && b in d.subjects && d.subjects[a].code == d.subjects[b].code
        ensures a == b
      {
        if a != id && b != id {
          assert db.subjects[a].code == db.subjects[b].code;
        }
      }
    }
    SubjectFrameValid(db, d);
    assert Put(db, id, dto) == Outcome(NoContent, d);
  }

  lemma PutKeepsValid(db: Db, id: int, dto: SubjectDto)
    requires Valid(db)
    ensures Valid(Put(db, id, dto).db)
  {
    if Put(db, id, dto).response == NoContent {
      PutSucceeds(db, id, dto);
    }
  }

  /** Deleting an existing subject always succeeds on a valid store; every
      reservation survives, those that referenced it without a subject. */
  lemma DeleteSucceeds(db: Db, id: int)
    requires Valid(db) && id in db.subjects
    ensures Delete(db, id).response == NoContent
    ensures Valid(Delete(db, id).db)
    ensures Delete(db, id).db.reservations.Keys == db.reservations.Keys
    ensures forall k :: k in db.reservations && db.reservations[k].subjectId == Some(id) ==>
              Delete(db, id).db.reservations[k] == db.reservations[k].(subjectId := None)
  {
    SetNullSubject(db, id);
  }

  // ---------------------------------------------------------------------
  // The controller

  class SubjectController {
    const context: AppDbContext

    constructor (context: AppDbContext)
      ensures this.context == context
    {
      this.context := context;
    }

    method PostSubject(createDto: SubjectDto) returns (r: Response)
      modifies context
      ensures Outcome(r, context.Snapshot()) == Post(old(context.Snapshot()), createDto)
    {
      if !ValidSubjectDto(createDto) {
        return BadRequest(InvalidDto);
      }
      if exists k :: k in context.subjects && context.subjects[k].code == createDto.code {
        return Conflict;
      }
      var before := context.Snapshot();
      var id := context.NextIdentity();
      context.subjects := context.subjects[id := Subject(createDto.name, createDto.code, createDto.description)];
      var saved := context.SaveChanges(before);
      r := if saved then Created(id) else ServerError;
    }

    method PutSubject(id: int, updateDto: SubjectDto) returns (r: Response)
      modifies context
      ensures Outcome(r, context.Snapshot()) == Put(old(context.Snapshot()), id, updateDto)
    {
      if !ValidSubjectDto(updateDto) {
        return BadRequest(InvalidDto);
      }
      if id !in context.subjects {
        return NotFound;
      }
      if exists k :: k in context.subjects && context.subjects[k].code == updateDto.code && k != id {
        return Conflict;
      }
      var before := context.Snapshot();
      context.subjects := context.subjects[id := Subject(updateDto.name, updateDto.code, updateDto.description)];
      var saved := context.SaveChanges(before);
      r := if saved then NoContent else ServerError;
    }

    method DeleteSubject(id: int) returns (r: Response)
      modifies context
      ensures Outcome(r, context.Snapshot()) == Delete(old(context.Snapshot()), id)
    {
      if id !in context.subjects {
        return NotFound;
      }
      var before := context.Snapshot();
      context.Load(WithoutSubject(before, id));
      var saved := context.SaveChanges(before);
      r := if saved then NoContent else ServerError;
    }

    method GetSubject(id: int) returns (subject: Option<Subject>)
      ensures subject == Get(context.Snapshot(), id)
    {
      subject := if id in context.subjects then Some(context.subjects[id]) else None;
    }
  }
}
