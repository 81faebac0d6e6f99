/** Behaviour that spans several controllers: what the delete rules of
    the store do to the stock ledger, and how the catalogue's stock
    overwrite interacts with later releases. */
module Scenarios {
  import opened Common
  import opened MaterialModel
  import opened ReservationMaterialModel
  import opened Store
  import Ledger = ReservationMaterials
  import Reservations
  import Materials

  /** Deleting a reservation drops its line-items without releasing their
      outstanding units, which deleting the line-item itself would have
      put back. */
  lemma ReservationDeleteStrandsStock(db: Db, lineId: int)
    requires Valid(db) && lineId in db.reservationMaterials
    ensures var line := db.reservationMaterials[lineId];
            var viaReservation := Reservations.Delete(db, line.reservationId);
            var viaLine := Ledger.Delete(db, lineId);
            && viaReservation.response == NoContent && viaLine.response == NoContent
            && lineId !in viaReservation.db.reservationMaterials
            && StockOf(viaReservation.db, line.materialId) == StockOf(db, line.materialId)
            && StockOf(viaLine.db, line.materialId) == StockOf(db, line.materialId) + Outstanding(line)
  {
    var line := db.reservationMaterials[lineId];
    assert line.reservationId in db.reservations && line.materialId in db.materials;
    Reservations.DeleteSucceeds(db, line.reservationId);
    Ledger.DeleteSucceeds(db, lineId);
  }

  /** A material is refused deletion while its last line-item exists, and
      deleted once that line-item is gone. */
  lemma MaterialDeletableOnceLinesGone(db: Db, lineId: int)
    requires Valid(db) && lineId in db.reservationMaterials
    requires forall k :: k in db.reservationMaterials && k != lineId ==>
               db.reservationMaterials[k].materialId != db.reservationMaterials[lineId].materialId
    ensures var m := db.reservationMaterials[lineId].materialId;
            var lineGone := Ledger.Delete(db, lineId);
            && Materials.Delete(db, m).response == ServerError
            && lineGone.response == NoContent
            && Materials.Delete(lineGone.db, m).response == NoContent
  {
    var m := db.reservationMaterials[lineId].materialId;
    assert m in db.materials;
    Materials.DeleteRestricted(db, m);
    Ledger.DeleteSucceeds(db, lineId);
    Materials.DeleteRestricted(Ledger.Delete(db, lineId).db, m);
  }

  /** The catalogue may set a stock to int.MaxValue while units are out;
      releasing them afterwards takes the stock past int.MaxValue. The
      unbounded model keeps a valid store, while the 32-bit addition the
      code performs would store a negative stock. */
  lemma OverwriteThenReleaseExceedsInt32(db: Db, lineId: int, dto: MaterialDto)
    requires Valid(db) && lineId in db.reservationMaterials
    requires ValidMaterialDto(dto) && dto.stock == IntMax && ParseCategory(dto.category).Some?
    requires Outstanding(db.reservationMaterials[lineId]) >= 1
    ensures var line := db.reservationMaterials[lineId];
            var put := Materials.Put(db, line.materialId, dto);
            var del := Ledger.Delete(put.db, lineId);
            && put.response == NoContent && del.response == NoContent && Valid(del.db)
            && StockOf(del.db, line.materialId) == IntMax + Outstanding(line)
            && Ledger.ReleaseAsWritten(IntMax, Outstanding(line)) < 0
  {
    var line := db.reservationMaterials[lineId];
    assert line.materialId in db.materials;
    Materials.PutSucceeds(db, line.materialId, dto);
    var put := Materials.Put(db, line.materialId, dto);
    assert put.db.reservationMaterials[lineId] == line;
    Ledger.DeleteSucceeds(put.db, lineId);
    assert ValidLine(line);
    Ledger.ReleaseAsWrittenWraps(Outstanding(line));
  }
}
