/**
  The persona under which the dashboard is viewed. The sidebar, the dashboard, the
  syllabus view and the attendance chart receive it as a plain string; the four strings
  the login and role selectors offer are known roles, any other string is kept verbatim
  so that the components' fallbacks for unknown roles stay visible.
 */
module Roles {

  datatype Role = Student | Teacher | SchoolAdmin | Government | Other(id: string)

  /** The role strings that the login form and the role selector offer. */
  predicate IsKnownId(s: string) {
    s == "student" || s == "teacher" || s == "school-admin" || s == "government"
  }

  function RoleId(r: Role): string {
    match r
    case Student => "student"
    case Teacher => "teacher"
    case SchoolAdmin => "school-admin"
    case Government => "government"
    case Other(s) => s
  }

  /** A role value that some string parses to: `Other` never wraps a known id. */
  predicate Canonical(r: Role) {
    r.Other? ==> !IsKnownId(r.id)
  }

  /** Reads a role string; unknown strings become `Other` and keep their text. */
  function ParseRole(s: string): (r: Role)
    ensures RoleId(r) == s
    ensures Canonical(r)
    ensures r.Other? <==> !IsKnownId(s)
  {
    if s == "student" then Student
    else if s == "teacher" then Teacher
    else if s == "school-admin" then SchoolAdmin
    else if s == "government" then Government
    else Other(s)
  }

  /** Parsing is the inverse of `RoleId` on canonical roles, so comparing role strings
      and comparing parsed roles decide the same thing. */
  lemma ParseRoleId(r: Role)
    requires Canonical(r)
    ensures ParseRole(RoleId(r)) == r
  {
  }

  lemma RoleIdInjective(a: Role, b: Role)
    requires Canonical(a) && Canonical(b)
    requires RoleId(a) == RoleId(b)
    ensures a == b
  {
    ParseRoleId(a);
    ParseRoleId(b);
  }
}
