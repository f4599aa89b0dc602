/** `getUserRoleDisplayName` of src/lib/utils.ts: the label shown for a stored role string. */
module Utils {
  import opened Auth

  function UserRoleDisplayName(role: string): (shown: string)
    ensures ParseRole(role).None? ==> shown == role
  {
    if role == "viewer" then "Student"
    else if role == "alumni" then "Alumni"
    else if role == "university_admin" then "University Admin"
    else if role == "contributor" then "Contributor"
    else if role == "editor" then "Editor"
    else if role == "platform_admin" then "Platform Admin"
    else role
  }

  /** Viewers are presented as students. */
  lemma ViewerIsStudent()
    ensures UserRoleDisplayName(RoleName(Viewer)) == "Student"
  {
  }

  /** Each known role has its own label, and no label is the raw role string. */
  lemma KnownRoleLabelsAreDistinct(r1: Role, r2: Role)
    ensures UserRoleDisplayName(RoleName(r1)) != RoleName(r1)
    ensures r1 != r2 ==> UserRoleDisplayName(RoleName(r1)) != UserRoleDisplayName(RoleName(r2))
  {
  }
}
