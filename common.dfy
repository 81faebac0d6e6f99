/** Shared vocabulary of the API: optional values, HTTP-level responses,
    32-bit integer bounds, the validation attributes' string rules and the
    case folding used by case-insensitive enum parsing and role normalization. */
module Common {

  datatype Option<+T> = None | Some(value: T)

  /** int.MaxValue of .NET */
  const IntMax: int := 0x7fff_ffff
  /** int.MinValue of .NET */
  const IntMin: int := -0x8000_0000

  predicate IsInt32(x: int) {
    IntMin <= x <= IntMax
  }

  /** Why a request was answered 400 Bad Request. */
  datatype Reason =
    | InvalidDto            // the [ApiController] model validation rejected the body
    | ReservationMissing
    | MaterialMissing
    | InsufficientStock(available: int)
    | ReturnedAboveQuantity
    | ReturnedNegative
    | InvalidStatus
    | UserMissing
    | SubjectMissing
    | GroupMissing
    | StartNotBeforeEnd
    | InvalidCategory
    | RoleInUse

  /** The result of one controller action. ServerError stands for the
      unhandled DbUpdateException raised when SaveChanges hits a store
      constraint (a 500 response; nothing is persisted). */
  datatype Response =
    | Created(id: int)
    | NoContent
    | NotFound
    | BadRequest(reason: Reason)
    | Conflict
    | ServerError

  /** A nullable string field that the controllers test with
      string.IsNullOrEmpty: supplied means present and not empty. */
  predicate Supplied(s: Option<string>) {
    s.Some? && s.value != ""
  }

  predicate IsWhiteSpace(c: char) {
    c == ' ' || c == '\t' || c == '\n' || c == '\r' || c == '\U{B}' || c == '\U{C}'
  }

  /** [Required] on a string: present and not only white space. */
  predicate Required(s: string) {
    exists i :: 0 <= i < |s| && !IsWhiteSpace(s[i])
  }

  /** [StringLength(n)] on an optional string. */
  predicate AtMost(s: Option<string>, n: nat) {
    s.Some? ==> |s.value| <= n
  }

  function UpperChar(c: char): char {
    if 'a' <= c <= 'z' then (c as int - 32) as char else c
  }

  /** Upper-case folding of a string, character by character (ToUpper,
      restricted to ASCII letters). */
  function Upper(s: string): string {
    seq(|s|, i requires 0 <= i < |s| => UpperChar(s[i]))
  }

  /** Ordinal case-insensitive equality, as Enum.TryParse(..., ignoreCase: true) compares names. */
  predicate EqualsIgnoreCase(a: string, b: string) {
    Upper(a) == Upper(b)
  }

  lemma UpperIdempotent(s: string)
    ensures Upper(Upper(s)) == Upper(s)
  {
  }

  /** Case folding does not change which names a string matches. */
  lemma EqualsIgnoreCaseOfUpper(s: string, name: string)
    ensures EqualsIgnoreCase(Upper(s), name) <==> EqualsIgnoreCase(s, name)
  {
    UpperIdempotent(s);
  }

  /** Two names that differ, ignoring case, at some position never match each other. */
  lemma DifferAt(a: string, b: string, i: nat)
    requires i < |a| && i < |b|
    requires UpperChar(a[i]) != UpperChar(b[i])
    ensures !EqualsIgnoreCase(a, b)
  {
    assert Upper(a)[i] != Upper(b)[i];
  }

  lemma DifferInLength(a: string, b: string)
    requires |a| != |b|
    ensures !EqualsIgnoreCase(a, b)
  {
  }
}
