/**
 * Role and permission predicates over the signed-in user, and the rank table
 * that orders the six roles (src/lib/auth.ts). A missing user (`null`) is
 * `None`; a user whose `user_role` is unset has `role == None`.
 */
module Auth {
  import opened Wrappers

  /** The `UserRole` union of src/types/index.ts. */
  datatype Role = PlatformAdmin | UniversityAdmin | Editor | Contributor | Viewer | Alumni

  /** The string the backend stores for each role. */
  function RoleName(r: Role): string {
    match r
    case PlatformAdmin => "platform_admin"
    case UniversityAdmin => "university_admin"
    case Editor => "editor"
    case Contributor => "contributor"
    case Viewer => "viewer"
    case Alumni => "alumni"
  }

  /** Reading a stored role string back; strings that name no role give `None`. */
  function ParseRole(s: string): (r: Option<Role>)
    ensures r.Some? ==> RoleName(r.value) == s
  {
    if s == "platform_admin" then Some(PlatformAdmin)
    else if s == "university_admin" then Some(UniversityAdmin)
    else if s == "editor" then Some(Editor)
    else if s == "contributor" then Some(Contributor)
    else if s == "viewer" then Some(Viewer)
    else if s == "alumni" then Some(Alumni)
    else None
  }

  /** Role names are a faithful encoding: parsing a role's name gives the role back. */
  lemma ParseRoleName(r: Role)
    ensures ParseRole(RoleName(r)) == Some(r)
  {
  }

  /**
   * The user the authentication context provides: the backend's user row
   * merged with the session's metadata.
   */
  datatype User = User(
    id: string,
    email: string,
    displayName: Option<string>,
    metadataDisplayName: Option<string>,
    role: Option<Role>,
    universityId: Option<string>)

  /** `hasRole`: `user?.user_role === role`. */
  predicate HasRole(user: Option<User>, role: Role) {
    user.Some? && user.value.role == Some(role)
  }

  /** `hasAnyRole`: false without a role, otherwise membership of the role in `roles`. */
  predicate HasAnyRole(user: Option<User>, roles: seq<Role>) {
    if user.Some? && user.value.role.Some? then user.value.role.value in roles else false
  }

  predicate IsPlatformAdmin(user: Option<User>) { HasRole(user, PlatformAdmin) }

  predicate IsUniversityAdmin(user: Option<User>) { HasRole(user, UniversityAdmin) }

  predicate IsAlumni(user: Option<User>) { HasRole(user, Alumni) }

  predicate IsViewer(user: Option<User>) { HasRole(user, Viewer) }

  predicate CanManageAllUsers(user: Option<User>) { IsPlatformAdmin(user) }

  predicate CanManageUniversityUsers(user: Option<User>) {
    IsPlatformAdmin(user) || IsUniversityAdmin(user)
  }

  /** `user?.id === profileCreatedBy`. */
  predicate IsCreator(user: Option<User>, profileCreatedBy: string) {
    user.Some? && user.value.id == profileCreatedBy
  }

  predicate CanEditProfile(user: Option<User>, profileCreatedBy: string) {
    IsPlatformAdmin(user) || IsUniversityAdmin(user) || (IsAlumni(user) && IsCreator(user, profileCreatedBy))
  }

  /** The early-return chain of `canViewProfile`. */
  predicate CanViewProfile(user: Option<User>, profileStatus: string, profileCreatedBy: string) {
    if IsPlatformAdmin(user) then true
    else if IsUniversityAdmin(user) then true
    else if IsAlumni(user) && IsCreator(user, profileCreatedBy) then true
    else if profileStatus == "published" then true
    else false
  }

  predicate CanAccessDashboard(user: Option<User>) {
    IsPlatformAdmin(user) || IsUniversityAdmin(user) || IsAlumni(user)
  }

  predicate CanCreateProfiles(user: Option<User>) {
    IsPlatformAdmin(user) || IsUniversityAdmin(user) || IsAlumni(user)
  }

  predicate CanApproveProfiles(user: Option<User>) {
    IsPlatformAdmin(user) || IsUniversityAdmin(user)
  }

  predicate CanManageUniversities(user: Option<User>) { IsPlatformAdmin(user) }

  /** `getRoleHierarchy`: the rank of a role. */
  function RoleRank(r: Role): (rank: nat)
    ensures 1 <= rank <= 4
    ensures rank == 4 <==> r == PlatformAdmin
    ensures rank == 3 <==> r == UniversityAdmin
    ensures rank == 1 <==> r == Viewer || r == Contributor
  {
    match r
    case PlatformAdmin => 4
    case UniversityAdmin => 3
    case Alumni => 2
    case Viewer => 1
    case Editor => 2
    case Contributor => 1
  }

  /** `hasHigherOrEqualRole`. */
  predicate HasHigherOrEqualRole(user: Option<User>, requiredRole: Role) {
    if user.None? || user.value.role.None? then false
    else RoleRank(user.value.role.value) >= RoleRank(requiredRole)
  }

  /** `hasRole` holds exactly for a present user carrying that very role. */
  lemma HasRoleExactly(user: Option<User>, r: Role)
    ensures HasRole(user, r) <==> user.Some? && user.value.role == Some(r)
    ensures HasRole(user, r) ==> forall r' :: r' != r ==> !HasRole(user, r')
  {
  }

  /** A missing or role-less user passes no role predicate and no permission. */
  lemma RolelessUserHasNoPermissions(user: Option<User>, roles: seq<Role>, r: Role, createdBy: string)
    requires user.None? || user.value.role.None?
    ensures !HasRole(user, r) && !HasAnyRole(user, roles) && !HasHigherOrEqualRole(user, r)
    ensures !IsPlatformAdmin(user) && !IsUniversityAdmin(user) && !IsAlumni(user) && !IsViewer(user)
    ensures !CanEditProfile(user, createdBy) && !CanAccessDashboard(user) && !CanCreateProfiles(user)
    ensures !CanApproveProfiles(user) && !CanManageUniversities(user) && !CanManageAllUsers(user)
  {
  }

  /** `hasAnyRole` is membership of the user's role in the list, for a user with a role. */
  lemma HasAnyRoleIsMembership(user: Option<User>, roles: seq<Role>)
    ensures HasAnyRole(user, roles) <==> exists i :: 0 <= i < |roles| && HasRole(user, roles[i])
  {
    if HasAnyRole(user, roles) {
      var i :| 0 <= i < |roles| && roles[i] == user.value.role.value;
      assert HasRole(user, roles[i]);
    }
  }

  /** The rank table orders the roles platform admin > university admin > alumni = editor > viewer = contributor. */
  lemma RankOrder()
    ensures RoleRank(PlatformAdmin) > RoleRank(UniversityAdmin) > RoleRank(Alumni)
    ensures RoleRank(Alumni) == RoleRank(Editor)
    ensures RoleRank(Editor) > RoleRank(Viewer) && RoleRank(Viewer) == RoleRank(Contributor)
  {
  }

  /** A user with a role always passes the check for that same role. */
  lemma HigherOrEqualIsReflexive(user: Option<User>)
    requires user.Some? && user.value.role.Some?
    ensures HasHigherOrEqualRole(user, user.value.role.value)
  {
  }

  /** Passing a role check implies passing every check for a role ranked no higher. */
  lemma HigherOrEqualIsMonotone(user: Option<User>, r1: Role, r2: Role)
    requires HasHigherOrEqualRole(user, r1) && RoleRank(r2) <= RoleRank(r1)
    ensures HasHigherOrEqualRole(user, r2)
  {
  }

  /** Only platform admins pass a platform-admin requirement; any role passes a viewer requirement. */
  lemma HigherOrEqualExtremes(user: Option<User>)
    ensures HasHigherOrEqualRole(user, PlatformAdmin) <==> IsPlatformAdmin(user)
    ensures HasHigherOrEqualRole(user, Viewer) <==> (user.Some? && user.value.role.Some?)
    ensures HasHigherOrEqualRole(user, UniversityAdmin) <==> CanApproveProfiles(user)
  {
  }

  /** Admins may edit any profile, alumni only their own, the other roles none. */
  lemma CanEditProfileByRole(user: Option<User>, createdBy: string)
    ensures IsPlatformAdmin(user) || IsUniversityAdmin(user) ==> CanEditProfile(user, createdBy)
    ensures IsAlumni(user) ==> (CanEditProfile(user, createdBy) <==> user.value.id == createdBy)
    ensures HasAnyRole(user, [Viewer, Editor, Contributor]) ==> !CanEditProfile(user, createdBy)
  {
  }

  /** Published profiles are visible to everyone, including signed-out visitors. */
  lemma PublishedIsPublic(user: Option<User>, createdBy: string)
    ensures CanViewProfile(user, "published", createdBy)
  {
  }

  /** An unpublished profile is visible exactly to admins and to its alumni creator. */
  lemma UnpublishedVisibility(user: Option<User>, status: string, createdBy: string)
    requires status != "published"
    ensures CanViewProfile(user, status, createdBy) <==> CanApproveProfiles(user) || CanEditProfile(user, createdBy)
  {
  }

  /** Dashboard access and profile creation are the same predicate. */
  lemma DashboardAccessIsCreateProfiles(user: Option<User>)
    ensures CanAccessDashboard(user) == CanCreateProfiles(user)
    ensures CanAccessDashboard(user) <==> HasAnyRole(user, [PlatformAdmin, UniversityAdmin, Alumni])
  {
  }

  /** The permissions nest: managing universities implies approving profiles implies creating them. */
  lemma PermissionsNest(user: Option<User>)
    ensures CanManageUniversities(user) == CanManageAllUsers(user) == IsPlatformAdmin(user)
    ensures CanApproveProfiles(user) == CanManageUniversityUsers(user)
    ensures CanManageUniversities(user) ==> CanApproveProfiles(user)
    ensures CanApproveProfiles(user) ==> CanCreateProfiles(user)
    ensures CanApproveProfiles(user) <==> HasHigherOrEqualRole(user, UniversityAdmin)
  {
  }
}
