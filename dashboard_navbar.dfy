/**
 * The dashboard's navigation bar (src/components/DashboardNavbar.tsx): the
 * name and initials in the user button, the breadcrumb for the current
 * path, the role label in the dropdown, and the dropdown and sign-out flags.
 */
module DashboardNavbar {
  import opened Wrappers
  import opened Strings
  import opened Auth
  import Navigation
  import Dashboard

  /** `getDisplayName`: the profile's display name, then the metadata name, the email, 'User'; '' without a user. */
  function DisplayName(user: Option<User>): (name: string)
    ensures name == "" <==> user.None?
    ensures user.Some? && Truthy(user.value.displayName) ==> name == user.value.displayName.value
  {
    if user.None? then ""
    else if Truthy(user.value.displayName) then user.value.displayName.value
    else if Truthy(user.value.metadataDisplayName) then user.value.metadataDisplayName.value
    else if user.value.email != "" then user.value.email
    else "User"
  }

  /**
   * The dashboard bar differs from the public bar only by looking at the
   * profile's display name first; without one both show the same name and
   * the same initials.
   */
  lemma DisplayNameExtendsPublicBar(user: Option<User>)
    ensures user.Some? && !Truthy(user.value.displayName) ==> DisplayName(user) == Navigation.DisplayName(user)
    ensures user.None? ==> DisplayName(user) == Navigation.DisplayName(user) == ""
    ensures user.Some? && !Truthy(user.value.displayName) ==>
      Navigation.GetInitials(DisplayName(user)) == Navigation.GetInitials(Navigation.DisplayName(user))
  {
  }

  /** The breadcrumb labels for the path segments, in the order they are tested. */
  const Sections: seq<(string, string)> := [
    ("/profiles", "Alumni Profiles"),
    ("/users", "User Management"),
    ("/universities", "Universities"),
    ("/analytics", "Analytics"),
    ("/settings", "Settings")
  ]

  /** The label of the first section whose segment the path contains. */
  function FirstSection(path: string, sections: seq<(string, string)>): (found: Option<string>)
    ensures found.Some? <==> exists i :: 0 <= i < |sections| && Contains(path, sections[i].0)
    ensures found.Some? ==> exists i :: (0 <= i < |sections| && Contains(path, sections[i].0) && found.value == sections[i].1
      && forall j :: 0 <= j < i ==> !Contains(path, sections[j].0))
  {
    if sections == [] then None
    else if Contains(path, sections[0].0) then Some(sections[0].1)
    else
      var rest := FirstSection(path, sections[1..]);
      assert forall i :: 1 <= i < |sections| ==> sections[i] == sections[1..][i - 1];
      rest
  }

  /** `getBreadcrumb`. */
  function Breadcrumb(pathname: string): string {
    if pathname == "/dashboard" then "Dashboard"
    else if Contains(pathname, "/profiles") then "Alumni Profiles"
    else if Contains(pathname, "/users") then "User Management"
    else if Contains(pathname, "/universities") then "Universities"
    else if Contains(pathname, "/analytics") then "Analytics"
    else if Contains(pathname, "/settings") then "Settings"
    else "Dashboard"
  }

  /**
   * The breadcrumb is 'Dashboard' for exactly '/dashboard'; otherwise it is
   * the label of the first section in the table the path contains, and
   * 'Dashboard' when it contains none.
   */
  lemma {:induction false} BreadcrumbIsFirstSection(pathname: string)
    ensures pathname == "/dashboard" ==> Breadcrumb(pathname) == "Dashboard"
    ensures pathname != "/dashboard" ==> Breadcrumb(pathname) == FirstSection(pathname, Sections).GetOr("Dashboard")
  {
    var t1 := Sections[1..];
    var t2 := t1[1..];
    var t3 := t2[1..];
    var t4 := t3[1..];
    assert t4 == [("/settings", "Settings")] && t4[1..] == [];
    assert FirstSection(pathname, t4) == if Contains(pathname, "/settings") then Some("Settings") else None;
    assert FirstSection(pathname, t3) == if Contains(pathname, "/analytics") then Some("Analytics") else FirstSection(pathname, t4);
    assert FirstSection(pathname, t2) == if Contains(pathname, "/universities") then Some("Universities") else FirstSection(pathname, t3);
    assert FirstSection(pathname, t1) == if Contains(pathname, "/users") then Some("User Management") else FirstSection(pathname, t2);
    assert FirstSection(pathname, Sections) == if Contains(pathname, "/profiles") then Some("Alumni Profiles") else FirstSection(pathname, t1);
  }

  /** A path under several sections takes the earliest one: profiles before users before universities. */
  lemma EarlierSectionWins(pathname: string)
    requires pathname != "/dashboard" && Contains(pathname, "/profiles")
    ensures Breadcrumb(pathname) == "Alumni Profiles"
  {
  }

  /** The role the dropdown goes by: the fetched role, else the context role, else 'viewer'. */
  function LabelRole(actualUserRole: Option<string>, user: Option<User>): (role: string)
    ensures role != ""
  {
    if Truthy(actualUserRole) then actualUserRole.value
    else if user.Some? && user.value.role.Some? then RoleName(user.value.role.value)
    else "viewer"
  }

  /** The role label: that role with its first '_' as a space, upper-cased. */
  function RoleLabel(actualUserRole: Option<string>, user: Option<User>): string {
    Dashboard.RoleBadge(LabelRole(actualUserRole, user))
  }

  /** For a signed-in user the navbar labels the same role the dashboard home goes by. */
  lemma LabelAgreesWithDashboard(actualUserRole: Option<string>, user: User)
    ensures LabelRole(actualUserRole, Some(user)) == Dashboard.EffectiveRole(actualUserRole, user)
    ensures RoleLabel(actualUserRole, Some(user)) == Dashboard.RoleBadge(Dashboard.EffectiveRole(actualUserRole, user))
  {
  }

  /** A user without any role, and no fetched role, is labelled 'VIEWER'. */
  lemma RolelessLabel(user: Option<User>)
    requires user.None? || user.value.role.None?
    ensures RoleLabel(None, user) == "VIEWER"
  {
    assert LabelRole(None, user) == "viewer";
    assert '_' !in "viewer";
  }

  class NavbarState {
    var isDropdownOpen: bool
    var isSigningOut: bool
    var actualUserRole: Option<string>

    constructor ()
      ensures !isDropdownOpen && !isSigningOut && actualUserRole.None?
    {
      isDropdownOpen := false;
      isSigningOut := false;
      actualUserRole := None;
    }

    /** `toggleDropdown`. */
    method ToggleDropdown()
      modifies this`isDropdownOpen
      ensures isDropdownOpen == !old(isDropdownOpen)
    {
      isDropdownOpen := !isDropdownOpen;
    }

    /**
     * `handleSignOut`: `signOutFails` is the outcome of the sign-out call.
     * On success the dropdown closes and the router goes home; on failure
     * an alert shows. Either way the signing-out flag, raised during the
     * call, is lowered afterwards.
     */
    method HandleSignOut(signOutFails: bool) returns (ghost signingOutDuringCall: bool, wentHome: bool, alerted: bool)
      modifies this`isDropdownOpen, this`isSigningOut
      ensures signingOutDuringCall && !isSigningOut
      ensures wentHome <==> !signOutFails
      ensures alerted <==> signOutFails
      ensures isDropdownOpen == (if signOutFails then old(isDropdownOpen) else false)
    {
      isSigningOut := true;
      signingOutDuringCall := isSigningOut;
      wentHome := false;
      alerted := false;
      if signOutFails {
        alerted := true;
      } else {
        isDropdownOpen := false;
        wentHome := true;
      }
      isSigningOut := false;
    }

    /** The role effect settles: a fetched role is kept only when it is truthy. */
    method RoleFetchSettled(fetched: Option<string>)
      modifies this`actualUserRole
      ensures actualUserRole == if Truthy(fetched) then fetched else old(actualUserRole)
    {
      if Truthy(fetched) {
        actualUserRole := fetched;
      }
    }
  }
}
