/** The material stock ledger (ReservationMaterialController): creating a
    line-item takes its quantity out of the material's stock, marking it
    Returned puts the returned quantity back, and deleting it puts back
    whatever was not returned. Each action is one atomic step on the store. */
module ReservationMaterials {
  import opened Common
  import opened MaterialModel
  import opened ReservationMaterialModel
  import opened Store

  // ---------------------------------------------------------------------
  // Stock arithmetic

  /** The value a C# int holds after unchecked arithmetic produced x. */
  function Wrap32(x: int): int {
    (x - IntMin) % 0x1_0000_0000 + IntMin
  }

  /** `material.Stock += amount` as written: 32-bit unchecked addition. */
  function ReleaseAsWritten(stock: int, amount: int): int {
    Wrap32(stock + amount)
  }

  /** `material.Stock += amount` as intended: the units come back, and a
      stock that was not negative stays not negative. Where the sum fits in
      an int it agrees with the code as written. */
  function Release(stock: int, amount: int): (r: int)
    ensures 0 <= stock && 0 <= amount ==> stock <= r
    ensures IsInt32(stock + amount) ==> r == ReleaseAsWritten(stock, amount)
  {
    stock + amount
  }

  /** The code as written turns the largest stock plus one returned unit
      into a negative stock. */
  lemma ReleaseAsWrittenWraps(amount: int)
    requires 1 <= amount <= IntMax
    ensures ReleaseAsWritten(IntMax, amount) < 0
    ensures Release(IntMax, amount) > IntMax
  {
    assert (IntMax + amount - IntMin) % 0x1_0000_0000 == amount - 1;
  }

  // ---------------------------------------------------------------------
  // The actions as functions of the store

  /** The tables outside the ledger are unchanged, and no material is added
      or removed; `StockMoved` says what happens to the material rows. */
  predicate LedgerFrame(db: Db, d: Db) {
    && d.users == db.users && d.roles == db.roles && d.subjects == db.subjects && d.groups == db.groups
    && d.reservations == db.reservations && d.teamMembers == db.teamMembers
    && d.materials.Keys == db.materials.Keys
  }

  /** The materials table is the old one with `delta` added to the stock of
      `materialId`: no other field of that row, and no other row, changes. */
  predicate StockMoved(db: Db, d: Db, materialId: int, delta: int) {
    && materialId in db.materials
    && d.materials == db.materials[materialId := db.materials[materialId].(stock := db.materials[materialId].stock + delta)]
  }

  /** The stock of every material other than `materialId` is unchanged. */
  ghost predicate OtherStocksKept(db: Db, d: Db, materialId: int) {
    forall m :: m != materialId ==> StockOf(d, m) == StockOf(db, m)
  }

  /** The line-item the update and delete actions load: the row together
      with its material, which the query includes. */
  predicate Loaded(db: Db, id: int) {
    id in db.reservationMaterials && db.reservationMaterials[id].materialId in db.materials
  }

  /** The status an update asks for, when it supplies one that parses. */
  function RequestedStatus(dto: UpdateReservationMaterialDto): Option<ReservationMaterialStatus> {
    if Supplied(dto.status) then ParseStatus(dto.status.value) else None
  }

  /** The returned quantity a line has once an update's body is applied. */
  function ReturnedAfter(line: ReservationMaterial, dto: UpdateReservationMaterialDto): int {
    if dto.returnedQuantity.Some? then dto.returnedQuantity.value else line.returnedQuantity
  }

  /** Whether an update puts stock back: it moves the line into Returned
      from any other status. */
  predicate ReleasesStock(line: ReservationMaterial, dto: UpdateReservationMaterialDto) {
    RequestedStatus(dto) == Some(Returned) && line.status != Returned
  }

  // ---------------------------------------------------------------------
  // The changes each successful action stages before saving

  /** The material's stock less the quantity, and a new Reserved line under
      the next identity. */
  function AfterReserve(db: Db, dto: CreateReservationMaterialDto): Db
    requires dto.materialId in db.materials
  {
    var material := db.materials[dto.materialId];
    db.(materials := db.materials[dto.materialId := material.(stock := material.stock - dto.quantity)],
        reservationMaterials := db.reservationMaterials[db.nextId := NewLine(dto.reservationId, dto.materialId, dto.quantity)],
        nextId := db.nextId + 1)
  }

  /** The line with the update's returned quantity and status; the stock
      grows by the new returned quantity when the line moves into Returned. */
  function AfterUpdate(db: Db, id: int, dto: UpdateReservationMaterialDto): Db
    requires Loaded(db, id)
  {
    var line := db.reservationMaterials[id];
    var line := line.(returnedQuantity := ReturnedAfter(line, dto));
    var material := db.materials[line.materialId];
    var materials :=
      if ReleasesStock(line, dto)
      then db.materials[line.materialId := material.(stock := Release(material.stock, line.returnedQuantity))]
      else db.materials;
    var status := if RequestedStatus(dto).Some? then RequestedStatus(dto).value else line.status;
    db.(materials := materials, reservationMaterials := db.reservationMaterials[id := line.(status := status)])
  }

  /** The stock grows by what the line did not return, and the line goes. */
  function AfterRemove(db: Db, id: int): Db
    requires Loaded(db, id)
  {
    var line := db.reservationMaterials[id];
    var material := db.materials[line.materialId];
    db.(materials := db.materials[line.materialId := material.(stock := Release(material.stock, Outstanding(line)))],
        reservationMaterials := db.reservationMaterials - {id})
  }

  /** POST: check the reservation, the material and the stock, then take
      the quantity out of stock and add a Reserved line with nothing
      returned. */
  function Post(db: Db, dto: CreateReservationMaterialDto): (o: Outcome)
    ensures !o.response.Created? ==> o.db == db
    ensures o.response == BadRequest(InvalidDto) <==> !ValidCreateDto(dto)
    ensures o.response == BadRequest(ReservationMissing) <==>
              ValidCreateDto(dto) && dto.reservationId !in db.reservations
    ensures o.response == BadRequest(MaterialMissing) <==>
              ValidCreateDto(dto) && dto.reservationId in db.reservations && dto.materialId !in db.materials
    ensures o.response == BadRequest(InsufficientStock(StockOf(db, dto.materialId))) <==>
              ValidCreateDto(dto) && dto.reservationId in db.reservations && dto.materialId in db.materials &&
              StockOf(db, dto.materialId) < dto.quantity
    ensures o.response.Created? ==>
              && dto.reservationId in db.reservations && dto.materialId in db.materials
              && o.response.id == db.nextId && o.db.nextId == db.nextId + 1
              && o.db.reservationMaterials ==
                   db.reservationMaterials[o.response.id := NewLine(dto.reservationId, dto.materialId, dto.quantity)]
              && o.db.reservationMaterials[o.response.id].status == Reserved
              && o.db.reservationMaterials[o.response.id].returnedQuantity == 0
              && StockOf(o.db, dto.materialId) == StockOf(db, dto.materialId) - dto.quantity >= 0
              && StockMoved(db, o.db, dto.materialId, -dto.quantity)
              && OtherStocksKept(db, o.db, dto.materialId)
              && LedgerFrame(db, o.db)
  {
    if !ValidCreateDto(dto) then Outcome(BadRequest(InvalidDto), db)
    else if dto.reservationId !in db.reservations then Outcome(BadRequest(ReservationMissing), db)
    else if dto.materialId !in db.materials then Outcome(BadRequest(MaterialMissing), db)
    else
      var material := db.materials[dto.materialId];
      if material.stock < dto.quantity then Outcome(BadRequest(InsufficientStock(material.stock)), db)
      else
        Commit(db, AfterReserve(db, dto), Created(db.nextId))
  }

  /** PUT: validate and store the returned quantity, then apply the status;
      a move into Returned from any other status puts the line's (just
      updated) returned quantity back into stock. */
  function Put(db: Db, id: int, dto: UpdateReservationMaterialDto): (o: Outcome)
    ensures o.response != NoContent ==> o.db == db
    ensures !ValidUpdateDto(dto) ==> o.response == BadRequest(InvalidDto)
    ensures ValidUpdateDto(dto) && !Loaded(db, id) ==> o.response == NotFound
    ensures (ValidUpdateDto(dto) && Loaded(db, id) && dto.returnedQuantity.Some? &&
             dto.returnedQuantity.value > db.reservationMaterials[id].quantity)
              ==> o.response == BadRequest(ReturnedAboveQuantity)
    ensures (ValidUpdateDto(dto) && Loaded(db, id) &&
             ReturnedAfter(db.reservationMaterials[id], dto) <= db.reservationMaterials[id].quantity &&
             Supplied(dto.status) && ParseStatus(dto.status.value).None?)
              ==> o.response == BadRequest(InvalidStatus)
    ensures o.response == NoContent ==> Loaded(db, id) && id in o.db.reservationMaterials
    ensures o.response == NoContent ==>
              var line := db.reservationMaterials[id];
              var line' := o.db.reservationMaterials[id];
              && o.db.reservationMaterials == db.reservationMaterials[id := line']
              && line'.reservationId == line.reservationId && line'.materialId == line.materialId
              && line'.quantity == line.quantity
              && line'.returnedQuantity == ReturnedAfter(line, dto)
              && (ValidLine(line) ==> ValidLine(line'))
              && line'.status == (if RequestedStatus(dto).Some? then RequestedStatus(dto).value else line.status)
              && StockOf(o.db, line.materialId) ==
                   StockOf(db, line.materialId) + (if ReleasesStock(line, dto) then line'.returnedQuantity else 0)
              && StockMoved(db, o.db, line.materialId, if ReleasesStock(line, dto) then line'.returnedQuantity else 0)
              && OtherStocksKept(db, o.db, line.materialId)
              && LedgerFrame(db, o.db) && o.db.nextId == db.nextId
  {
    if !ValidUpdateDto(dto) then Outcome(BadRequest(InvalidDto), db)
    else if !Loaded(db, id) then Outcome(NotFound, db)
    else
      var line := db.reservationMaterials[id];
      if dto.returnedQuantity.Some? && dto.returnedQuantity.value > line.quantity then
        Outcome(BadRequest(ReturnedAboveQuantity), db)
      else if dto.returnedQuantity.Some? && dto.returnedQuantity.value < 0 then
        Outcome(BadRequest(ReturnedNegative), db)
      else
        if Supplied(dto.status) && ParseStatus(dto.status.value).None? then
          Outcome(BadRequest(InvalidStatus), db)
        else
          Commit(db, AfterUpdate(db, id, dto), NoContent)
  }

  /** DELETE: put back what was not returned, whatever the status, and
      remove the line. */
  function Delete(db: Db, id: int): (o: Outcome)
    ensures o.response != NoContent ==> o.db == db
    ensures o.response == NotFound <==> !Loaded(db, id)
    ensures o.response == NoContent ==>
              var line := db.reservationMaterials[id];
              && Loaded(db, id)
              && o.db.reservationMaterials == db.reservationMaterials - {id}
              && StockOf(o.db, line.materialId) == StockOf(db, line.materialId) + Outstanding(line)
              && StockMoved(db, o.db, line.materialId, Outstanding(line))
              && OtherStocksKept(db, o.db, line.materialId)
              && LedgerFrame(db, o.db) && o.db.nextId == db.nextId
  {
    if !Loaded(db, id) then Outcome(NotFound, db)
    else
      Commit(db, AfterRemove(db, id), NoContent)
  }

  /** GET by reservation: exactly the lines of that reservation, as stored. */
  function ByReservation(db: Db, reservationId: int): (r: map<int, ReservationMaterial>)
    ensures forall id :: id in r <==> id in db.reservationMaterials && db.reservationMaterials[id].reservationId == reservationId
    ensures forall id :: id in r ==> r[id] == db.reservationMaterials[id]
  {
    map id | id in db.reservationMaterials && db.reservationMaterials[id].reservationId == reservationId
      :: db.reservationMaterials[id]
  }

  /** The body of an update that only sets the status. */
  function StatusUpdate(status: string): UpdateReservationMaterialDto {
    UpdateReservationMaterialDto(None, Some(status))
  }

  // ---------------------------------------------------------------------
  // Each action keeps the store valid

  /** A store that differs from a valid one only in the ledger's tables
      and still satisfies their rules is valid. */
  lemma LedgerFrameValid(db: Db, d: Db)
    requires Valid(db) && LedgerFrame(db, d) && d.nextId >= db.nextId
    requires forall id :: id in d.materials ==> ValidMaterial(d.materials[id])
    requires forall id :: id in d.reservationMaterials ==>
               ValidLine(d.reservationMaterials[id]) && id < d.nextId &&
               d.reservationMaterials[id].reservationId in d.reservations &&
               d.reservationMaterials[id].materialId in d.materials
    ensures Valid(d)
  {
    assert ReservationsRefsHold(d) by {
      forall r | r in d.reservations ensures ReservationRefsHold(d, d.reservations[r]) {
        assert ReservationRefsHold(db, db.reservations[r]);
      }
    }
    assert MemberRefsHold(d) by {
      forall k | k in d.teamMembers
        ensures d.teamMembers[k].reservationId in d.reservations && d.teamMembers[k].userId in d.users
      {
        assert db.teamMembers[k].reservationId in db.reservations;
      }
    }
    assert IdsBelow(d) by {
      assert forall id :: id in d.materials ==> id in db.materials;
    }
  }

  /** The staged create keeps the store valid when its checks pass. */
  lemma AfterReserveValid(db: Db, dto: CreateReservationMaterialDto)
    requires Valid(db) && ValidCreateDto(dto)
    requires dto.reservationId in db.reservations && dto.materialId in db.materials
    requires dto.quantity <= StockOf(db, dto.materialId)
    ensures Valid(AfterReserve(db, dto))
  {
    assert ValidMaterial(db.materials[dto.materialId]);
    var d := AfterReserve(db, dto);
    NewLineValid(dto);
    forall id | id in d.reservationMaterials
      ensures ValidLine(d.reservationMaterials[id]) && id < d.nextId
      ensures d.reservationMaterials[id].reservationId in d.reservations
      ensures d.reservationMaterials[id].materialId in d.materials
    {
      if id != db.nextId {
        assert id in db.reservationMaterials;
      }
    }
    LedgerFrameValid(db, d);
  }

  /** A create whose references exist and whose quantity is in stock always
      succeeds on a valid store, with an identity no line holds yet. */
  lemma PostSucceeds(db: Db, dto: CreateReservationMaterialDto)
    requires Valid(db) && ValidCreateDto(dto)
    requires dto.reservationId in db.reservations && dto.materialId in db.materials
    requires dto.quantity <= StockOf(db, dto.materialId)
    ensures Post(db, dto).response == Created(db.nextId)
    ensures db.nextId !in db.reservationMaterials
    ensures Valid(Post(db, dto).db)
  {
    AfterReserveValid(db, dto);
  }

  lemma PostKeepsValid(db: Db, dto: CreateReservationMaterialDto)
    requires Valid(db)
    ensures Valid(Post(db, dto).db)
  {
    if Post(db, dto).response.Created? {
      PostSucceeds(db, dto);
    }
  }

  /** The staged update keeps the store valid when its checks pass. */
  lemma AfterUpdateValid(db: Db, id: int, dto: UpdateReservationMaterialDto)
    requires Valid(db) && ValidUpdateDto(dto) && Loaded(db, id)
    requires ReturnedAfter(db.reservationMaterials[id], dto) <= db.reservationMaterials[id].quantity
    ensures Valid(AfterUpdate(db, id, dto))
  {
    var line := db.reservationMaterials[id];
    assert ValidLine(line);
    assert ValidMaterial(db.materials[line.materialId]);
    LedgerFrameValid(db, AfterUpdate(db, id, dto));
  }

  /** An update that passes every check always succeeds on a valid store. */
  lemma PutSucceeds(db: Db, id: int, dto: UpdateReservationMaterialDto)
    requires Valid(db) && ValidUpdateDto(dto) && Loaded(db, id)
    requires ReturnedAfter(db.reservationMaterials[id], dto) <= db.reservationMaterials[id].quantity
    requires Supplied(dto.status) ==> ParseStatus(dto.status.value).Some?
    ensures Put(db, id, dto).response == NoContent
    ensures Valid(Put(db, id, dto).db)
  {
    AfterUpdateValid(db, id, dto);
  }

  lemma PutKeepsValid(db: Db, id: int, dto: UpdateReservationMaterialDto)
    requires Valid(db)
    ensures Valid(Put(db, id, dto).db)
  {
    if Put(db, id, dto).response == NoContent {
      PutSucceeds(db, id, dto);
    }
  }

  /** The staged delete keeps the store valid. */
  lemma AfterRemoveValid(db: Db, id: int)
    requires Valid(db) && Loaded(db, id)
    ensures Valid(AfterRemove(db, id))
  {
    var line := db.reservationMaterials[id];
    assert ValidLine(line);
    assert ValidMaterial(db.materials[line.materialId]);
    LedgerFrameValid(db, AfterRemove(db, id));
  }

  /** Deleting a loaded line always succeeds on a valid store. */
  lemma DeleteSucceeds(db: Db, id: int)
    requires Valid(db) && Loaded(db, id)
    ensures Delete(db, id).response == NoContent
    ensures Valid(Delete(db, id).db)
  {
    AfterRemoveValid(db, id);
  }

  lemma DeleteKeepsValid(db: Db, id: int)
    requires Valid(db)
    ensures Valid(Delete(db, id).db)
  {
    if Loaded(db, id) {
      DeleteSucceeds(db, id);
    }
  }

  // ---------------------------------------------------------------------
  // Behaviour of the ledger across several requests

  /** Creating a line and deleting it before anything is returned gives
      back exactly the stock, and the line table, the store had. */
  lemma {:induction false} CreateDeleteRoundTrip(db: Db, dto: CreateReservationMaterialDto)
    requires Valid(db) && ValidCreateDto(dto)
    requires dto.reservationId in db.reservations && dto.materialId in db.materials
    requires dto.quantity <= StockOf(db, dto.materialId)
    ensures var created := Post(db, dto);
            var deleted := Delete(created.db, created.response.id);
            && created.response == Created(db.nextId) && deleted.response == NoContent
            && deleted.db.materials == db.materials
            && deleted.db.reservationMaterials == db.reservationMaterials
  {
    PostSucceeds(db, dto);
    var created := Post(db, dto);
    DeleteSucceeds(created.db, db.nextId);
    var deleted := Delete(created.db, db.nextId);
    assert deleted.db.reservationMaterials == db.reservationMaterials;
    var m := dto.materialId;
    assert deleted.db.materials[m] == db.materials[m];
  }

  /** Once a create takes the last units, any further create of the same
      material is refused and the stock stays at zero. */
  lemma ExhaustedStockRefuses(db: Db, dto: CreateReservationMaterialDto, next: CreateReservationMaterialDto)
    requires Valid(db) && ValidCreateDto(dto) && ValidCreateDto(next)
    requires dto.reservationId in db.reservations && dto.materialId in db.materials
    requires dto.quantity == StockOf(db, dto.materialId)
    requires next.reservationId in db.reservations && next.materialId == dto.materialId
    ensures var first := Post(db, dto);
            var second := Post(first.db, next);
            && first.response.Created? && StockOf(first.db, dto.materialId) == 0
            && second.response == BadRequest(InsufficientStock(0))
            && second.db == first.db
  {
    PostSucceeds(db, dto);
  }

  /** Re-sending Returned for a line that is already Returned leaves every
      stock as it was, whatever returned quantity the body also carries;
      such an update is saved whenever that quantity is in range. */
  lemma ResendReturnedKeepsStock(db: Db, id: int, dto: UpdateReservationMaterialDto)
    requires Valid(db) && Loaded(db, id) && db.reservationMaterials[id].status == Returned
    requires RequestedStatus(dto) == Some(Returned)
    ensures (ValidUpdateDto(dto) &&
             ReturnedAfter(db.reservationMaterials[id], dto) <= db.reservationMaterials[id].quantity)
              ==> Put(db, id, dto).response == NoContent
    ensures forall m :: StockOf(Put(db, id, dto).db, m) == StockOf(db, m)
  {
    if ValidUpdateDto(dto) && ReturnedAfter(db.reservationMaterials[id], dto) <= db.reservationMaterials[id].quantity {
      PutSucceeds(db, id, dto);
    }
  }

  /** Setting Reserved or Damaged never moves stock. */
  lemma NonReturnStatusKeepsStock(db: Db, id: int, dto: UpdateReservationMaterialDto)
    requires RequestedStatus(dto) != Some(Returned)
    ensures forall m :: StockOf(Put(db, id, dto).db, m) == StockOf(db, m)
  {
  }

  /** A line can go Returned -> Reserved -> Returned: the two updates leave
      the line exactly as it was and put its returned quantity back into
      stock a second time. */
  lemma {:induction false} ReturnedReservedReturnedReleasesTwice(db: Db, id: int)
    requires Valid(db) && Loaded(db, id) && db.reservationMaterials[id].status == Returned
    ensures var line := db.reservationMaterials[id];
            var back := Put(db, id, StatusUpdate("Reserved"));
            var again := Put(back.db, id, StatusUpdate("Returned"));
            && back.response == NoContent && again.response == NoContent
            && again.db.reservationMaterials == db.reservationMaterials
            && StockOf(again.db, line.materialId) == StockOf(db, line.materialId) + line.returnedQuantity
  {
    var line := db.reservationMaterials[id];
    ParseStatusName(Reserved, "");
    ParseStatusName(Returned, "");
    PutSucceeds(db, id, StatusUpdate("Reserved"));
    var back := Put(db, id, StatusUpdate("Reserved"));
    PutSucceeds(back.db, id, StatusUpdate("Returned"));
    var again := Put(back.db, id, StatusUpdate("Returned"));
    assert again.db.reservationMaterials[id] == line;
  }

  /** A Damaged line moved to Returned puts its returned quantity back. */
  lemma DamagedToReturnedReleases(db: Db, id: int)
    requires Valid(db) && Loaded(db, id) && db.reservationMaterials[id].status == Damaged
    ensures var line := db.reservationMaterials[id];
            var o := Put(db, id, StatusUpdate("Returned"));
            o.response == NoContent &&
            StockOf(o.db, line.materialId) == StockOf(db, line.materialId) + line.returnedQuantity
  {
    ParseStatusName(Returned, "");
    PutSucceeds(db, id, StatusUpdate("Returned"));
  }

  /** Deleting a Damaged line still puts back everything not returned. */
  lemma DeleteDamagedReleases(db: Db, id: int)
    requires Valid(db) && Loaded(db, id) && db.reservationMaterials[id].status == Damaged
    ensures var line := db.reservationMaterials[id];
            var o := Delete(db, id);
            o.response == NoContent &&
            StockOf(o.db, line.materialId) == StockOf(db, line.materialId) + line.quantity - line.returnedQuantity
  {
    DeleteSucceeds(db, id);
  }

  /** Returning everything together with the status, then deleting the
      line, gives back exactly the stock the store had before the create. */
  lemma {:induction false} ReturnThenDeleteRestoresStock(db: Db, dto: CreateReservationMaterialDto)
    requires Valid(db) && ValidCreateDto(dto)
    requires dto.reservationId in db.reservations && dto.materialId in db.materials
    requires dto.quantity <= StockOf(db, dto.materialId)
    ensures var created := Post(db, dto);
            var returned := Put(created.db, db.nextId, UpdateReservationMaterialDto(Some(dto.quantity), Some("Returned")));
            var deleted := Delete(returned.db, db.nextId);
            && returned.response == NoContent && deleted.response == NoContent
            && StockOf(deleted.db, dto.materialId) == StockOf(db, dto.materialId)
  {
    var id := db.nextId;
    PostSucceeds(db, dto);
    var created := Post(db, dto);
    ParseStatusName(Returned, "");
    var body := UpdateReservationMaterialDto(Some(dto.quantity), Some("Returned"));
    PutSucceeds(created.db, id, body);
    var returned := Put(created.db, id, body);
    DeleteSucceeds(returned.db, id);
  }

  /** Setting the returned quantity after the move to Returned moves no
      stock, so deleting the line afterwards puts nothing back: the whole
      quantity is lost to the stock. */
  lemma {:induction false} LateReturnedQuantityIsLost(db: Db, dto: CreateReservationMaterialDto)
    requires Valid(db) && ValidCreateDto(dto)
    requires dto.reservationId in db.reservations && dto.materialId in db.materials
    requires dto.quantity <= StockOf(db, dto.materialId)
    ensures var created := Post(db, dto);
            var marked := Put(created.db, db.nextId, StatusUpdate("Returned"));
            var counted := Put(marked.db, db.nextId, UpdateReservationMaterialDto(Some(dto.quantity), None));
            var deleted := Delete(counted.db, db.nextId);
            && marked.response == NoContent && counted.response == NoContent && deleted.response == NoContent
            && StockOf(deleted.db, dto.materialId) == StockOf(db, dto.materialId) - dto.quantity
  {
    var id := db.nextId;
    PostSucceeds(db, dto);
    var created := Post(db, dto);
    ParseStatusName(Returned, "");
    PutSucceeds(created.db, id, StatusUpdate("Returned"));
    var marked := Put(created.db, id, StatusUpdate("Returned"));
    var body := UpdateReservationMaterialDto(Some(dto.quantity), None);
    PutSucceeds(marked.db, id, body);
    var counted := Put(marked.db, id, body);
    DeleteSucceeds(counted.db, id);
  }

  // ---------------------------------------------------------------------
  // The controller

  class ReservationMaterialController {
    const context: AppDbContext

    constructor (context: AppDbContext)
      ensures this.context == context
    {
      this.context := context;
    }

    method PostReservationMaterial(createDto: CreateReservationMaterialDto) returns (r: Response)
      modifies context
      ensures Outcome(r, context.Snapshot()) == Post(old(context.Snapshot()), createDto)
    {
      if !ValidCreateDto(createDto) {
        return BadRequest(InvalidDto);
      }
      if createDto.reservationId !in context.reservations {
        return BadRequest(ReservationMissing);
      }
      if createDto.materialId !in context.materials {
        return BadRequest(MaterialMissing);
      }
      var material := context.materials[createDto.materialId];
      if material.stock < createDto.quantity {
        return BadRequest(InsufficientStock(material.stock));
      }
      var before := context.Snapshot();
      var id := context.NextIdentity();
      var reservationMaterial := NewLine(createDto.reservationId, createDto.materialId, createDto.quantity);
      material := material.(stock := material.stock - createDto.quantity);
      context.materials := context.materials[createDto.materialId := material];
      context.reservationMaterials := context.reservationMaterials[id := reservationMaterial];
      var saved := context.SaveChanges(before);
      r := if saved then Created(id) else ServerError;
    }

    method PutReservationMaterial(id: int, updateDto: UpdateReservationMaterialDto) returns (r: Response)
      modifies context
      ensures Outcome(r, context.Snapshot()) == Put(old(context.Snapshot()), id, updateDto)
    {
      if !ValidUpdateDto(updateDto) {
        return BadRequest(InvalidDto);
      }
      if id !in context.reservationMaterials || context.reservationMaterials[id].materialId !in context.materials {
        return NotFound;
      }
      var reservationMaterial := context.reservationMaterials[id];
      if updateDto.returnedQuantity.Some? {
        if updateDto.returnedQuantity.value > reservationMaterial.quantity {
          return BadRequest(ReturnedAboveQuantity);
        }
        if updateDto.returnedQuantity.value < 0 {
          return BadRequest(ReturnedNegative);
        }
        reservationMaterial := reservationMaterial.(returnedQuantity := updateDto.returnedQuantity.value);
      }
      var material := context.materials[reservationMaterial.materialId];
      if Supplied(updateDto.status) {
        var status := ParseStatus(updateDto.status.value);
        if status.None? {
          return BadRequest(InvalidStatus);
        }
        if status.value == Returned && reservationMaterial.status != Returned {
          material := material.(stock := Release(material.stock, reservationMaterial.returnedQuantity));
        }
        reservationMaterial := reservationMaterial.(status := status.value);
      }
      var before := context.Snapshot();
      assert AfterUpdate(before, id, updateDto).materials == before.materials[reservationMaterial.materialId := material];
      assert AfterUpdate(before, id, updateDto).reservationMaterials == before.reservationMaterials[id := reservationMaterial];
      context.materials := context.materials[reservationMaterial.materialId := material];
      context.reservationMaterials := context.reservationMaterials[id := reservationMaterial];
      var saved := context.SaveChanges(before);
      r := if saved then NoContent else ServerError;
    }

    method DeleteReservationMaterial(id: int) returns (r: Response)
      modifies context
      ensures Outcome(r, context.Snapshot()) == Delete(old(context.Snapshot()), id)
    {
      if id !in context.reservationMaterials || context.reservationMaterials[id].materialId !in context.materials {
        return NotFound;
      }
      var reservationMaterial := context.reservationMaterials[id];
      var material := context.materials[reservationMaterial.materialId];
      material := material.(stock := Release(material.stock, reservationMaterial.quantity - reservationMaterial.returnedQuantity));
      var before := context.Snapshot();
      context.materials := context.materials[reservationMaterial.materialId := material];
      context.reservationMaterials := context.reservationMaterials - {id};
      var saved := context.SaveChanges(before);
      r := if saved then NoContent else ServerError;
    }

    method GetMaterialsByReservation(reservationId: int) returns (lines: map<int, ReservationMaterial>)
      ensures lines == ByReservation(context.Snapshot(), reservationId)
    {
      lines := map id | id in context.reservationMaterials && context.reservationMaterials[id].reservationId == reservationId
                 :: context.reservationMaterials[id];
    }
  }
}
