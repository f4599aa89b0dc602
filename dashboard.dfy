/**
 * The dashboard home (src/app/dashboard/page.tsx): the role it goes by,
 * the role re-fetch effect, and which cards and banners it shows.
 */
module Dashboard {
  import opened Wrappers
  import opened Strings
  import opened Auth
  import ProtectedRoute

  /** The context user's `user_role` as a string, if it has one. */
  function ContextRoleName(user: User): Option<string> {
    if user.role.Some? then Some(RoleName(user.role.value)) else None
  }

  /** `actualUserRole || user.user_role || 'viewer'`. */
  function EffectiveRole(actualUserRole: Option<string>, user: User): (role: string)
    ensures role != ""
    ensures Truthy(actualUserRole) ==> role == actualUserRole.value
    ensures !Truthy(actualUserRole) && user.role.Some? ==> role == RoleName(user.role.value)
    ensures !Truthy(actualUserRole) && user.role.None? ==> role == "viewer"
  {
    if Truthy(actualUserRole) then actualUserRole.value
    else if user.role.Some? then RoleName(user.role.value)
    else "viewer"
  }

  /**
   * The user the visibility checks see: the context user with `user_role`
   * replaced by the effective role string; a string that names no role
   * passes none of the role tests.
   */
  function AsEffective(user: User, effectiveRole: string): Option<User> {
    Some(user.(role := ParseRole(effectiveRole)))
  }

  datatype Card = ProfilesCard | CreateProfileCard | UsersCard | UniversitiesCard | SettingsCard | AnalyticsCard

  datatype Banner = PlatformAdminBanner | UniversityAdminBanner | AlumniBanner

  /** The quick-action cards, in page order. */
  function Cards(user: User, effectiveRole: string): seq<Card> {
    var u := AsEffective(user, effectiveRole);
    [ProfilesCard]
    + (if CanCreateProfiles(u) then [CreateProfileCard] else [])
    + (if IsPlatformAdmin(u) then [UsersCard] else [])
    + (if CanManageUniversities(u) then [UniversitiesCard] else [])
    + [SettingsCard]
    + (if IsPlatformAdmin(u) || IsUniversityAdmin(u) then [AnalyticsCard] else [])
  }

  /** The role banners, in page order. */
  function Banners(user: User, effectiveRole: string): seq<Banner> {
    var u := AsEffective(user, effectiveRole);
    (if IsPlatformAdmin(u) then [PlatformAdminBanner] else [])
    + (if IsUniversityAdmin(u) then [UniversityAdminBanner] else [])
    + (if IsAlumni(u) then [AlumniBanner] else [])
  }

  /** The subtitle of the profiles card. */
  function ProfilesCardText(user: User, effectiveRole: string): string {
    var u := AsEffective(user, effectiveRole);
    if IsPlatformAdmin(u) || IsUniversityAdmin(u) then "Manage and review alumni profiles" else "View and edit your profile"
  }

  /** The badge: the effective role with its first '_' as a space, upper-cased. */
  function RoleBadge(effectiveRole: string): string {
    Upper(ReplaceFirst(effectiveRole, '_', ' '))
  }

  datatype Page = Page(cards: seq<Card>, banners: seq<Banner>, badge: string, profilesText: string)

  /** The gate around the content: `<ProtectedRoute requireDashboardAccess>`, sign-in required, no role, no fallback. */
  function Gate(): (p: ProtectedRoute.Props)
    ensures p.requireAuth && p.requireDashboardAccess && p.requiredRole.None? && !p.hasFallback
  {
    ProtectedRoute.Props(None, true, true, false)
  }

  /** What shows once there is a user: the gate's own view, or the page content when the gate lets it through. */
  datatype Screen = Guarded(view: ProtectedRoute.View) | Content(page: Page)

  /**
   * What the page renders: nothing without a user; otherwise the gate,
   * which reads the context user and the session's loading flag, and only
   * behind it the content, which reads the effective role.
   */
  function Render(user: Option<User>, authLoading: bool, actualUserRole: Option<string>): Option<Screen> {
    if user.None? then None
    else
      var view := ProtectedRoute.Render(Gate(), authLoading, user);
      if view != ProtectedRoute.Children then Some(Guarded(view))
      else
        var role := EffectiveRole(actualUserRole, user.value);
        Some(Content(Page(Cards(user.value, role), Banners(user.value, role), RoleBadge(role), ProfilesCardText(user.value, role))))
  }

  /**
   * The content shows exactly when the session has loaded and the context
   * user may access the dashboard; otherwise the gate's spinner or its
   * dashboard-denied panel shows, whatever role was fetched.
   */
  lemma ContentIffDashboardAccess(user: User, authLoading: bool, actualUserRole: Option<string>)
    ensures Render(Some(user), authLoading, actualUserRole).Some?
    ensures Render(Some(user), authLoading, actualUserRole).value.Content? <==> !authLoading && CanAccessDashboard(Some(user))
    ensures authLoading ==> Render(Some(user), authLoading, actualUserRole) == Some(Guarded(ProtectedRoute.Spinner))
    ensures !authLoading && !CanAccessDashboard(Some(user)) ==>
      Render(Some(user), authLoading, actualUserRole) == Some(Guarded(ProtectedRoute.DashboardDeniedPanel))
  {
    ProtectedRoute.ChildrenIffAllChecksPass(Gate(), Some(user));
    ProtectedRoute.SpreadDecidesLikeUser(Some(user), Viewer);
  }

  /**
   * A signed-in user without a role, or with a role below alumni, gets the
   * dashboard-denied panel and is sent home, even when the fetched role is
   * an admin role.
   */
  lemma LowRoleIsTurnedAway(user: User, actualUserRole: Option<string>)
    requires user.role.None? || user.role == Some(Viewer) || user.role == Some(Editor) || user.role == Some(Contributor)
    ensures Render(Some(user), false, actualUserRole) == Some(Guarded(ProtectedRoute.DashboardDeniedPanel))
    ensures ProtectedRoute.Redirect(Gate(), false, Some(user)) == Some("/")
  {
    ContentIffDashboardAccess(user, false, actualUserRole);
    ProtectedRoute.RenderAgreesWithRedirect(Gate(), false, Some(user));
  }

  /** The users and universities cards show exactly for an effective platform admin. */
  lemma AdminOnlyCards(user: User, effectiveRole: string)
    ensures UsersCard in Cards(user, effectiveRole) <==> effectiveRole == "platform_admin"
    ensures UniversitiesCard in Cards(user, effectiveRole) <==> effectiveRole == "platform_admin"
  {
  }

  /** The create card shows for admins and alumni, the analytics card for the two admin roles only. */
  lemma RoleDependentCards(user: User, effectiveRole: string)
    ensures CreateProfileCard in Cards(user, effectiveRole) <==>
      effectiveRole == "platform_admin" || effectiveRole == "university_admin" || effectiveRole == "alumni"
    ensures AnalyticsCard in Cards(user, effectiveRole) <==>
      effectiveRole == "platform_admin" || effectiveRole == "university_admin"
    ensures ProfilesCard in Cards(user, effectiveRole) && SettingsCard in Cards(user, effectiveRole)
  {
  }

  /** At most one banner shows, and none unless the effective role is an admin role or alumni. */
  lemma AtMostOneBanner(user: User, effectiveRole: string)
    ensures |Banners(user, effectiveRole)| <= 1
    ensures Banners(user, effectiveRole) == [] <==>
      effectiveRole != "platform_admin" && effectiveRole != "university_admin" && effectiveRole != "alumni"
  {
  }

  /** The fetched role wins over the context role, which wins over the viewer default. */
  lemma FetchedRoleDecides(user: User, fetched: string)
    requires fetched != ""
    ensures EffectiveRole(Some(fetched), user) == fetched
    ensures Banners(user, EffectiveRole(Some(fetched), user)) == Banners(user.(role := None), fetched)
  {
  }

  /**
   * A user the gate lets through whose fetched role is 'viewer' sees the
   * viewer page: only the profiles and settings cards, no banner, badge VIEWER.
   */
  lemma FetchedViewerSeesViewerPage(user: User)
    requires CanAccessDashboard(Some(user))
    ensures Render(Some(user), false, Some("viewer")) ==
      Some(Content(Page([ProfilesCard, SettingsCard], [], "VIEWER", "View and edit your profile")))
  {
    ContentIffDashboardAccess(user, false, Some("viewer"));
    ViewerSeesNoRoleContent(user);
    ViewerBadge();
  }

  /** The effective role 'viewer' brings only the profiles and settings cards, no banner, and the plain subtitle. */
  lemma ViewerSeesNoRoleContent(user: User)
    ensures Cards(user, "viewer") == [ProfilesCard, SettingsCard]
    ensures Banners(user, "viewer") == []
    ensures ProfilesCardText(user, "viewer") == "View and edit your profile"
  {
    ParseRoleName(Viewer);
    assert AsEffective(user, "viewer") == Some(user.(role := Some(Viewer)));
  }

  /** The badge of the effective role 'viewer'. */
  lemma ViewerBadge()
    ensures RoleBadge("viewer") == "VIEWER"
  {
    assert '_' !in "viewer";
  }

  /** Without a user the page renders nothing. */
  lemma NoUserRendersNothing(authLoading: bool, actualUserRole: Option<string>)
    ensures Render(None, authLoading, actualUserRole).None?
  {
  }

  /** The state of the page's role effect. */
  class DashboardPage {
    var actualUserRole: Option<string>
    var loadingRole: bool

    constructor ()
      ensures actualUserRole.None? && !loadingRole
    {
      actualUserRole := None;
      loadingRole := false;
    }

    /** The start of the effect: a role fetch begins only for a user with an id. */
    method StartRoleFetch(user: Option<User>) returns (fetching: bool)
      modifies this`loadingRole
      ensures fetching <==> user.Some? && user.value.id != ""
      ensures loadingRole == (fetching || old(loadingRole))
    {
      fetching := user.Some? && user.value.id != "";
      if fetching {
        loadingRole := true;
      }
    }

    /**
     * The fetch settles with `fetched` (`None` for `null` and for a failed
     * fetch, which is only logged). A truthy role is kept; the context is
     * refreshed when it differs from the context user's role.
     */
    method RoleFetchSettled(user: User, fetched: Option<string>) returns (refresh: bool)
      modifies this`actualUserRole, this`loadingRole
      ensures !loadingRole
      ensures actualUserRole == if Truthy(fetched) then fetched else old(actualUserRole)
      ensures refresh <==> Truthy(fetched) && ContextRoleName(user) != fetched
    {
      refresh := false;
      if Truthy(fetched) {
        actualUserRole := fetched;
        if fetched != ContextRoleName(user) {
          refresh := true;
        }
      }
      loadingRole := false;
    }
  }

  /** A refresh is requested only when a role was fetched and the context disagrees with it. */
  lemma RefreshOnlyOnMismatch(user: User, r: Role)
    ensures user.role == Some(r) ==> !(Truthy(Some(RoleName(r))) && ContextRoleName(user) != Some(RoleName(r)))
    ensures user.role.None? ==> Truthy(Some(RoleName(r))) && ContextRoleName(user) != Some(RoleName(r))
  {
  }
}
