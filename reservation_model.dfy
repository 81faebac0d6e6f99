/** The Reservation entity: a user's booking of a time window, optionally
    for a subject and a group, with a free status field, and the bodies
    clients send to create or partially update one. Dates are modelled as
    ordered integers. */
module ReservationModel {
  import opened Common

  datatype ReservationStatus = Pending | Confirmed | Cancelled | Completed

  /** The status a new reservation starts in. */
  const DefaultStatus: ReservationStatus := Pending

  function StatusName(s: ReservationStatus): string {
    match s
    case Pending => "Pending"
    case Confirmed => "Confirmed"
    case Cancelled => "Cancelled"
    case Completed => "Completed"
  }

  /** Enum.TryParse<ReservationStatus>(s, ignoreCase: true) on the member
      names: a string parses exactly when it equals, ignoring case, one
      member's name. */
  function ParseStatus(s: string): (r: Option<ReservationStatus>)
    ensures forall st :: r == Some(st) <==> EqualsIgnoreCase(s, StatusName(st))
  {
    DifferInLength("Pending", "Confirmed");
    DifferInLength("Pending", "Cancelled");
    DifferInLength("Pending", "Completed");
    DifferAt("Confirmed", "Cancelled", 1);
    DifferAt("Confirmed", "Completed", 3);
    DifferAt("Cancelled", "Completed", 1);
    if EqualsIgnoreCase(s, "Pending") then Some(Pending)
    else if EqualsIgnoreCase(s, "Confirmed") then Some(Confirmed)
    else if EqualsIgnoreCase(s, "Cancelled") then Some(Cancelled)
    else if EqualsIgnoreCase(s, "Completed") then Some(Completed)
    else None
  }

  /** Every status's own name parses back to it, and parsing ignores case. */
  lemma ParseStatusName(st: ReservationStatus, s: string)
    ensures ParseStatus(StatusName(st)) == Some(st)
    ensures ParseStatus(Upper(s)) == ParseStatus(s)
  {
    EqualsIgnoreCaseOfUpper(s, "Pending");
    EqualsIgnoreCaseOfUpper(s, "Confirmed");
    EqualsIgnoreCaseOfUpper(s, "Cancelled");
    EqualsIgnoreCaseOfUpper(s, "Completed");
  }

  /** A stored reservation row (identity and timestamps left out). The
      subject and the group are optional; the user is required. */
  datatype Reservation = Reservation(
    userId: int,
    subjectId: Option<int>,
    groupId: Option<int>,
    startTime: int,
    endTime: int,
    status: ReservationStatus,
    purpose: string)

  /** The purpose column holds at most 500 characters. The order of the two
      dates is a store constraint, Store.DatesOrdered. */
  predicate ValidReservation(r: Reservation) {
    |r.purpose| <= 500
  }

  datatype CreateReservationDto = CreateReservationDto(
    userId: int,
    subjectId: Option<int>,
    groupId: Option<int>,
    startTime: int,
    endTime: int,
    purpose: string)

  predicate ValidCreateReservationDto(d: CreateReservationDto) {
    Required(d.purpose) && |d.purpose| <= 500
  }

  /** Every field is optional: an absent field leaves the stored one as it is. */
  datatype UpdateReservationDto = UpdateReservationDto(
    subjectId: Option<int>,
    groupId: Option<int>,
    startTime: Option<int>,
    endTime: Option<int>,
    status: Option<string>,
    purpose: Option<string>)

  predicate ValidUpdateReservationDto(d: UpdateReservationDto) {
    AtMost(d.purpose, 500)
  }
}
