/**
 * User management (src/app/dashboard/users/page.tsx): the list of users,
 * a per-user role change, and how each user's role is shown.
 */
module DashboardUsers {
  import opened Wrappers
  import opened Strings
  import opened Auth
  import opened Backend

  const UpdateFailedMessage := "Failed to update user role"

  /** A row of the user list. */
  datatype ListedUser = ListedUser(id: string, email: string, displayName: Option<string>, role: Option<Role>, createdAt: string)

  /** The local list after a successful change: the users with that id get the new role. */
  function WithRole(users: seq<ListedUser>, userId: string, newRole: Role): (r: seq<ListedUser>)
    ensures |r| == |users|
  {
    seq(|users|, i requires 0 <= i < |users| => if users[i].id == userId then users[i].(role := Some(newRole)) else users[i])
  }

  /** Only the matching users change, and for them only the role; order and length are kept. */
  lemma WithRoleTouchesOnlyMatching(users: seq<ListedUser>, userId: string, newRole: Role)
    ensures forall i :: 0 <= i < |users| && users[i].id == userId ==>
      WithRole(users, userId, newRole)[i] == users[i].(role := Some(newRole))
    ensures forall i :: 0 <= i < |users| && users[i].id != userId ==> WithRole(users, userId, newRole)[i] == users[i]
    ensures forall i :: 0 <= i < |users| ==> WithRole(users, userId, newRole)[i].id == users[i].id
  {
  }

  /** Changing a role twice to the same value is the same as changing it once. */
  lemma WithRoleIdempotent(users: seq<ListedUser>, userId: string, newRole: Role)
    ensures WithRole(WithRole(users, userId, newRole), userId, newRole) == WithRole(users, userId, newRole)
  {
  }

  /** `user_role || 'viewer'`: the role shown and selected for a user. */
  function DisplayedRole(role: Option<Role>): (shown: Role)
    ensures role.Some? ==> shown == role.value
    ensures role.None? ==> shown == Viewer
  {
    role.GetOr(Viewer)
  }

  /** `getRoleBadgeColor`. */
  function RoleBadgeColor(role: Role): string {
    match role
    case PlatformAdmin => "bg-red-100 text-red-800"
    case UniversityAdmin => "bg-blue-100 text-blue-800"
    case Alumni => "bg-green-100 text-green-800"
    case Viewer => "bg-gray-100 text-gray-800"
    case _ => "bg-gray-100 text-gray-800"
  }

  /** Red, blue and green mark the three elevated roles, each its own; every other role is gray. */
  lemma BadgeColors(r: Role)
    ensures RoleBadgeColor(r) == "bg-gray-100 text-gray-800" <==> r !in {PlatformAdmin, UniversityAdmin, Alumni}
    ensures r != PlatformAdmin ==> RoleBadgeColor(r) != RoleBadgeColor(PlatformAdmin)
    ensures r != UniversityAdmin ==> RoleBadgeColor(r) != RoleBadgeColor(UniversityAdmin)
    ensures r != Alumni ==> RoleBadgeColor(r) != RoleBadgeColor(Alumni)
  {
  }

  datatype RoleIcon = ShieldIcon | BuildingIcon | GroupIcon | EyeIcon | PersonIcon

  /** `getRoleIcon`. */
  function IconFor(role: Role): RoleIcon {
    match role
    case PlatformAdmin => ShieldIcon
    case UniversityAdmin => BuildingIcon
    case Alumni => GroupIcon
    case Viewer => EyeIcon
    case _ => PersonIcon
  }

  /** The badge text: `user_role?.replace('_', ' ').toUpperCase() || 'VIEWER'`. */
  function BadgeText(role: Option<Role>): string {
    if role.Some? then Upper(ReplaceFirst(RoleName(role.value), '_', ' ')) else "VIEWER"
  }

  /** A user without a role is shown exactly as a viewer: same badge text, colour, icon and selected option. */
  lemma RolelessShownAsViewer()
    ensures BadgeText(None) == BadgeText(Some(Viewer))
    ensures DisplayedRole(None) == Viewer
    ensures RoleBadgeColor(DisplayedRole(None)) == RoleBadgeColor(Viewer)
    ensures IconFor(DisplayedRole(None)) == IconFor(Viewer)
  {
    assert '_' !in "viewer";
    assert Upper("viewer") == "VIEWER";
  }

  class UsersPage {
    var users: seq<ListedUser>
    var error: string
    /** The id whose role change is in flight, if any. */
    var updatingUser: Option<string>

    constructor (loaded: seq<ListedUser>)
      ensures users == loaded && error == "" && updatingUser.None?
    {
      users := loaded;
      error := "";
      updatingUser := None;
    }

    /**
     * `handleRoleUpdate`: one update that asks for the row back. On success
     * the list changes as `WithRole` says; on failure (a fault, or no such
     * user) the list stays and the error is set. Either way the in-flight
     * marker, set to the user during the call, is cleared afterwards.
     */
    method HandleRoleUpdate(store: Store, userId: string, newRole: Role) returns (ghost updatingDuringCall: Option<string>)
      modifies this`users, this`error, this`updatingUser, store
      ensures updatingDuringCall == Some(userId) && updatingUser.None?
      ensures store.calls == old(store.calls) + 1
      ensures var ok := old(store.calls) !in store.faults && userId in old(store.db.users);
        && (ok ==> users == WithRole(old(users), userId, newRole) && error == old(error)
                   && store.log == old(store.log) + [UpdateUserRow(userId, newRole, None, true)]
                   && userId in store.db.users && store.db.users[userId].role == Some(newRole))
        && (!ok ==> users == old(users) && error == UpdateFailedMessage && store.log == old(store.log))
    {
      updatingUser := Some(userId);
      updatingDuringCall := updatingUser;
      var ok, _, _ := store.Issue(UpdateUserRow(userId, newRole, None, true));
      if ok {
        users := WithRole(users, userId, newRole);
      } else {
        error := UpdateFailedMessage;
      }
      updatingUser := None;
    }
  }
}
