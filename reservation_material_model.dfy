/** The ReservationMaterial entity, a line-item: a quantity of one material
    committed to one reservation, how much of it has come back, and its
    status; and the bodies clients send to create or update one. */
module ReservationMaterialModel {
  import opened Common

  datatype ReservationMaterialStatus = Reserved | Returned | Damaged

  function StatusName(s: ReservationMaterialStatus): string {
    match s
    case Reserved => "Reserved"
    case Returned => "Returned"
    case Damaged => "Damaged"
  }

  /** Enum.TryParse<ReservationMaterialStatus>(s, ignoreCase: true) on the
      member names. */
  function ParseStatus(s: string): (r: Option<ReservationMaterialStatus>)
    ensures forall st :: r == Some(st) <==> EqualsIgnoreCase(s, StatusName(st))
  {
    DifferAt("Reserved", "Returned", 2);
    DifferInLength("Reserved", "Damaged");
    DifferInLength("Returned", "Damaged");
    if EqualsIgnoreCase(s, "Reserved") then Some(Reserved)
    else if EqualsIgnoreCase(s, "Returned") then Some(Returned)
    else if EqualsIgnoreCase(s, "Damaged") then Some(Damaged)
    else None
  }

  /** Every status's own name parses back to it, and parsing ignores case. */
  lemma ParseStatusName(st: ReservationMaterialStatus, s: string)
    ensures ParseStatus(StatusName(st)) == Some(st)
    ensures ParseStatus(Upper(s)) == ParseStatus(s)
  {
    EqualsIgnoreCaseOfUpper(s, "Reserved");
    EqualsIgnoreCaseOfUpper(s, "Returned");
    EqualsIgnoreCaseOfUpper(s, "Damaged");
  }

  /** A stored line-item (identity and timestamps left out). */
  datatype ReservationMaterial = ReservationMaterial(
    reservationId: int,
    materialId: int,
    quantity: int,
    returnedQuantity: int,
    status: ReservationMaterialStatus)

  /** A line as the entity's initializers leave it: nothing returned yet and
      status Reserved. */
  function NewLine(reservationId: int, materialId: int, quantity: int): ReservationMaterial {
    ReservationMaterial(reservationId, materialId, quantity, 0, Reserved)
  }

  /** The quantity lies in [1, int.MaxValue] and what came back lies between
      zero and the quantity. */
  predicate ValidLine(l: ReservationMaterial) {
    1 <= l.quantity <= IntMax && 0 <= l.returnedQuantity <= l.quantity
  }

  /** Units of the line that have not been accounted for as returned. */
  function Outstanding(l: ReservationMaterial): (n: int)
    ensures ValidLine(l) ==> 0 <= n <= l.quantity
  {
    l.quantity - l.returnedQuantity
  }

  datatype CreateReservationMaterialDto = CreateReservationMaterialDto(
    reservationId: int,
    materialId: int,
    quantity: int)

  predicate ValidCreateDto(d: CreateReservationMaterialDto) {
    1 <= d.quantity <= IntMax
  }

  /** Both fields are optional. */
  datatype UpdateReservationMaterialDto = UpdateReservationMaterialDto(
    returnedQuantity: Option<int>,
    status: Option<string>)

  predicate ValidUpdateDto(d: UpdateReservationMaterialDto) {
    d.returnedQuantity.Some? ==> 0 <= d.returnedQuantity.value <= IntMax
  }

  /** A created line satisfies the line invariant whenever the body passed validation. */
  lemma NewLineValid(d: CreateReservationMaterialDto)
    requires ValidCreateDto(d)
    ensures ValidLine(NewLine(d.reservationId, d.materialId, d.quantity))
  {
  }
}
