/** The material catalogue (MaterialController): create, overwrite, delete
    and list materials. An overwrite sets the stock outright, whatever the
    ledger has taken out of it; a delete is refused while line-items still
    reference the material. */
module Materials {
  import opened Common
  import opened MaterialModel
  import opened Store

  /** Only the materials table (and the identity counter) differ. */
  predicate MaterialFrame(db: Db, d: Db) {
    && d.users == db.users && d.roles == db.roles && d.subjects == db.subjects && d.groups == db.groups
    && d.reservations == db.reservations && d.reservationMaterials == db.reservationMaterials
    && d.teamMembers == db.teamMembers
  }

  /** POST: the category must parse; the row takes the body's fields. */
  function Post(db: Db, dto: MaterialDto): (o: Outcome)
    ensures !o.response.Created? ==> o.db == db
    ensures o.response == BadRequest(InvalidDto) <==> !ValidMaterialDto(dto)
    ensures o.response == BadRequest(InvalidCategory) <==> ValidMaterialDto(dto) && ParseCategory(dto.category).None?
    ensures o.response.Created? ==> o.response.id in o.db.materials
    ensures o.response.Created? ==>
              var m := o.db.materials[o.response.id];
              && o.response.id == db.nextId && o.db.nextId == db.nextId + 1
              && o.db.materials == db.materials[o.response.id := m]
              && m.name == dto.name && m.description == dto.description && m.stock == dto.stock
              && Some(m.category) == ParseCategory(dto.category)
              && ValidMaterial(m)
              && MaterialFrame(db, o.db)
  {
    if !ValidMaterialDto(dto) then Outcome(BadRequest(InvalidDto), db)
    else match ParseCategory(dto.category)
      case None => Outcome(BadRequest(InvalidCategory), db)
      case Some(category) =>
        Commit(db, db.(materials := db.materials[db.nextId := Material.Material(dto.name, dto.description, dto.stock, category)],
                       nextId := db.nextId + 1),
               Created(db.nextId))
  }

  /** PUT: a full overwrite of name, description, stock and category. */
  function Put(db: Db, id: int, dto: MaterialDto): (o: Outcome)
    ensures o.response != NoContent ==> o.db == db
    ensures !ValidMaterialDto(dto) ==> o.response == BadRequest(InvalidDto)
    ensures ValidMaterialDto(dto) && id !in db.materials ==> o.response == NotFound
    ensures (ValidMaterialDto(dto) && id in db.materials && ParseCategory(dto.category).None?)
              ==> o.response == BadRequest(InvalidCategory)
    ensures o.response == NoContent ==> id in db.materials && id in o.db.materials
    ensures o.response == NoContent ==>
              var m := o.db.materials[id];
              && o.db.materials == db.materials[id := m]
              && m.name == dto.name && m.description == dto.description && m.stock == dto.stock
              && Some(m.category) == ParseCategory(dto.category)
              && MaterialFrame(db, o.db) && o.db.nextId == db.nextId
  {
    if !ValidMaterialDto(dto) then Outcome(BadRequest(InvalidDto), db)
    else if id !in db.materials then Outcome(NotFound, db)
    else match ParseCategory(dto.category)
      case None => Outcome(BadRequest(InvalidCategory), db)
      case Some(category) =>
        Commit(db, db.(materials := db.materials[id := Material.Material(dto.name, dto.description, dto.stock, category)]),
               NoContent)
  }

  /** DELETE: remove the row; the store refuses it while a line-item still
      references the material. */
  function Delete(db: Db, id: int): (o: Outcome)
    ensures o.response != NoContent ==> o.db == db
    ensures o.response == NotFound <==> id !in db.materials
    ensures o.response == NoContent ==>
              && o.db.materials == db.materials - {id}
              && (forall k :: k in db.reservationMaterials ==> db.reservationMaterials[k].materialId != id)
              && MaterialFrame(db, o.db) && o.db.nextId == db.nextId
  {
    if id !in db.materials then Outcome(NotFound, db)
    else Commit(db, WithoutMaterial(db, id), NoContent)
  }

  /** GET by id. */
  function Get(db: Db, id: int): (r: Option<Material>)
    ensures r.Some? <==> id in db.materials
    ensures r.Some? ==> r.value == db.materials[id]
  {
    if id in db.materials then Some(db.materials[id]) else None
  }

  /** GET by category: nothing when the category does not parse, otherwise
      exactly the materials of that category. */
  function ByCategory(db: Db, category: string): (r: Option<map<int, Material>>)
    ensures r.None? <==> ParseCategory(category).None?
    ensures r.Some? ==> forall id :: id in r.value <==>
              id in db.materials && Some(db.materials[id].category) == ParseCategory(category)
    ensures r.Some? ==> forall id :: id in r.value ==> r.value[id] == db.materials[id]
  {
    match ParseCategory(category)
    case None => None
    case Some(c) => Some(map id | id in db.materials && db.materials[id].category == c :: db.materials[id])
  }

  // ---------------------------------------------------------------------
  // Each action keeps the store valid

  /** A materials table of valid rows under the counter keeps a valid
      store valid. */
  lemma MaterialFrameValid(db: Db, d: Db)
    requires Valid(db) && MaterialFrame(db, d) && d.nextId >= db.nextId
    requires db.materials.Keys <= d.materials.Keys
    requires forall id :: id in d.materials ==> ValidMaterial(d.materials[id]) && id < d.nextId
    ensures Valid(d)
  {
    assert ReservationsRefsHold(d) by {
      forall r | r in d.reservations ensures ReservationRefsHold(d, d.reservations[r]) {
        assert ReservationRefsHold(db, db.reservations[r]);
      }
    }
  }

  /** A body that passes validation and names a category always creates a
      valid material under an identity no material holds yet. */
  lemma PostSucceeds(db: Db, dto: MaterialDto)
    requires Valid(db) && ValidMaterialDto(dto) && ParseCategory(dto.category).Some?
    ensures Post(db, dto).response == Created(db.nextId)
    ensures db.nextId !in db.materials
    ensures Valid(Post(db, dto).db)
  {
    var m := Material.Material(dto.name, dto.description, dto.stock, ParseCategory(dto.category).value);
    InsertValid(db, m);
    assert Post(db, dto) == Outcome(Created(db.nextId), db.(materials := db.materials[db.nextId := m], nextId := db.nextId + 1));
  }

  lemma InsertValid(db: Db, m: Material)
    requires Valid(db) && ValidMaterial(m)
    ensures Valid(db.(materials := db.materials[db.nextId := m], nextId := db.nextId + 1))
  {
    var d := db.(materials := db.materials[db.nextId := m], nextId := db.nextId + 1);
    forall k | k in d.materials
      ensures ValidMaterial(d.materials[k]) && k < d.nextId
    {
      if k != db.nextId {
        assert k in db.materials;
      }
    }
    MaterialFrameValid(db, d);
  }

  lemma PostKeepsValid(db: Db, dto: MaterialDto)
    requires Valid(db)
    ensures Valid(Post(db, dto).db)
  {
    if Post(db, dto).response.Created? {
      PostSucceeds(db, dto);
    }
  }

  /** An overwrite of an existing material always succeeds on a valid store,
      and sets the stock to the body's value whatever is reserved. */
  lemma PutSucceeds(db: Db, id: int, dto: MaterialDto)
    requires Valid(db) && ValidMaterialDto(dto) && id in db.materials && ParseCategory(dto.category).Some?
    ensures Put(db, id, dto).response == NoContent
    ensures StockOf(Put(db, id, dto).db, id) == dto.stock
    ensures Valid(Put(db, id, dto).db)
  {
    var m := Material.Material(dto.name, dto.description, dto.stock, ParseCategory(dto.category).value);
    MaterialFrameValid(db, db.(materials := db.materials[id := m]));
  }

  lemma PutKeepsValid(db: Db, id: int, dto: MaterialDto)
    requires Valid(db)
    ensures Valid(Put(db, id, dto).db)
  {
    if Put(db, id, dto).response == NoContent {
      PutSucceeds(db, id, dto);
    }
  }

  /** An existing material is deleted exactly when no line-item references
      it; otherwise the restriction surfaces as a server error. */
  lemma DeleteRestricted(db: Db, id: int)
    requires Valid(db) && id in db.materials
    ensures Delete(db, id).response == NoContent <==>
              forall k :: k in db.reservationMaterials ==> db.reservationMaterials[k].materialId != id
    ensures Delete(db, id).response != NoContent ==> Delete(db, id).response == ServerError
    ensures Valid(Delete(db, id).db)
  {
    RestrictMaterial(db, id);
  }

  // ---------------------------------------------------------------------
  // The controller

  class MaterialController {
    const context: AppDbContext

    constructor (context: AppDbContext)
      ensures this.context == context
    {
      this.context := context;
    }

    method PostMaterial(createDto: MaterialDto) returns (r: Response)
      modifies context
      ensures Outcome(r, context.Snapshot()) == Post(old(context.Snapshot()), createDto)
    {
      if !ValidMaterialDto(createDto) {
        return BadRequest(InvalidDto);
      }
      var category := ParseCategory(createDto.category);
      if category.None? {
        return BadRequest(InvalidCategory);
      }
      var before := context.Snapshot();
      var id := context.NextIdentity();
      var material := Material.Material(createDto.name, createDto.description, createDto.stock, category.value);
      context.materials := context.materials[id := material];
      var saved := context.SaveChanges(before);
      r := if saved then Created(id) else ServerError;
    }

    method PutMaterial(id: int, updateDto: MaterialDto) returns (r: Response)
      modifies context
      ensures Outcome(r, context.Snapshot()) == Put(old(context.Snapshot()), id, updateDto)
    {
      if !ValidMaterialDto(updateDto) {
        return BadRequest(InvalidDto);
      }
      if id !in context.materials {
        return NotFound;
      }
      var category := ParseCategory(updateDto.category);
      if category.None? {
        return BadRequest(InvalidCategory);
      }
      var material := context.materials[id];
      material := material.(name := updateDto.name, description := updateDto.description,
                            stock := updateDto.stock, category := category.value);
      var before := context.Snapshot();
      context.materials := context.materials[id := material];
      var saved := context.SaveChanges(before);
      r := if saved then NoContent else ServerError;
    }

    method DeleteMaterial(id: int) returns (r: Response)
      modifies context
      ensures Outcome(r, context.Snapshot()) == Delete(old(context.Snapshot()), id)
    {
      if id !in context.materials {
        return NotFound;
      }
      var before := context.Snapshot();
      context.materials := context.materials - {id};
      var saved := context.SaveChanges(before);
      r := if saved then NoContent else ServerError;
    }

    method GetMaterial(id: int) returns (material: Option<Material>)
      ensures material == Get(context.Snapshot(), id)
    {
      material := if id in context.materials then Some(context.materials[id]) else None;
    }

    method GetMaterialsByCategory(category: string) returns (materials: Option<map<int, Material>>)
      ensures materials == ByCategory(context.Snapshot(), category)
    {
      var c := ParseCategory(category);
      if c.None? {
        return None;
      }
      materials := Some(map id | id in context.materials && context.materials[id].category == c.value :: context.materials[id]);
    }
  }
}
