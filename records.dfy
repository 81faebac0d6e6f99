/** The plain records the controllers read or write besides the ledger:
    users, roles, subjects, groups and team members, with the bodies of the
    requests that create or overwrite them. Identity, timestamps and the
    identity framework's own columns are left out. */
module Records {
  import opened Common

  /** The columns of a user the modelled rules look at. */
  datatype User = User(email: string, roleId: int)

  /** A role keeps its name and the upper-cased form used for lookups. */
  datatype Role = Role(name: string, normalizedName: string)

  predicate NormalizedRole(r: Role) {
    r.normalizedName == Upper(r.name)
  }

  datatype RoleDto = RoleDto(name: string)

  predicate ValidRoleDto(d: RoleDto) {
    Required(d.name) && |d.name| <= 20
  }

  datatype Subject = Subject(name: string, code: string, description: string)

  datatype SubjectDto = SubjectDto(name: string, code: string, description: string)

  /** The description carries no attribute of its own, but as a
      non-nullable string it is implicitly required by model validation. */
  predicate ValidSubjectDto(d: SubjectDto) {
    && Required(d.name) && |d.name| <= 100
    && Required(d.code) && |d.code| <= 20
    && Required(d.description) && |d.description| <= 500
  }

  datatype Group = Group(name: string, code: string)

  datatype GroupDto = GroupDto(name: string, code: string)

  predicate ValidGroupDto(d: GroupDto) {
    Required(d.name) && |d.name| <= 100 && Required(d.code) && |d.code| <= 20
  }

  datatype TeamMember = TeamMember(reservationId: int, userId: int)
}
