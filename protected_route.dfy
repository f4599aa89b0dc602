/**
 * `ProtectedRoute` (src/components/ProtectedRoute.tsx): a wrapper that shows
 * its children only to users who pass up to three checks (signed in,
 * dashboard access, a minimum role), and otherwise redirects and shows an
 * access-denied panel or the caller's fallback.
 */
module ProtectedRoute {
  import opened Wrappers
  import opened Strings
  import opened Auth

  /** The component's props other than its children. `hasFallback` tells whether a fallback was passed. */
  datatype Props = Props(requiredRole: Option<Role>, requireAuth: bool, requireDashboardAccess: bool, hasFallback: bool)

  /** The props as a caller that passes only `requiredRole` gets them. */
  function DefaultProps(requiredRole: Option<Role>): (p: Props)
    ensures p.requireAuth && !p.requireDashboardAccess && !p.hasFallback && p.requiredRole == requiredRole
  {
    Props(requiredRole, true, false, false)
  }

  /**
   * The object the checks receive: `{ ...user, email: user?.email || '', id: user?.id || '' }`.
   * It exists even when nobody is signed in, with no role.
   */
  function Spread(user: Option<User>): User {
    if user.Some? then user.value else User("", "", None, None, None, None)
  }

  /** Checking the spread object decides exactly as checking the user itself would. */
  lemma SpreadDecidesLikeUser(user: Option<User>, r: Role)
    ensures CanAccessDashboard(Some(Spread(user))) == CanAccessDashboard(user)
    ensures HasHigherOrEqualRole(Some(Spread(user)), r) == HasHigherOrEqualRole(user, r)
  {
  }

  /** The check that failed first. */
  datatype Denial = NotSignedIn | NoDashboardAccess | InsufficientRole(required: Role)

  /** The checks in their fixed order; the first failure alone decides. */
  function FirstDenial(props: Props, user: Option<User>): (d: Option<Denial>)
    ensures d.None? <==>
      && (props.requireAuth ==> user.Some?)
      && (props.requireDashboardAccess ==> CanAccessDashboard(user))
      && (props.requiredRole.Some? ==> HasHigherOrEqualRole(user, props.requiredRole.value))
  {
    SpreadDecidesLikeUser(user, if props.requiredRole.Some? then props.requiredRole.value else Viewer);
    if props.requireAuth && user.None? then Some(NotSignedIn)
    else if props.requireDashboardAccess && !CanAccessDashboard(Some(Spread(user))) then Some(NoDashboardAccess)
    else if props.requiredRole.Some? && !HasHigherOrEqualRole(Some(Spread(user)), props.requiredRole.value)
    then Some(InsufficientRole(props.requiredRole.value))
    else None
  }

  /** The earlier checks take precedence over the later ones. */
  lemma FirstFailureWins(props: Props, user: Option<User>)
    ensures props.requireAuth && user.None? ==> FirstDenial(props, user) == Some(NotSignedIn)
    ensures !(props.requireAuth && user.None?) && props.requireDashboardAccess && !CanAccessDashboard(user) ==>
      FirstDenial(props, user) == Some(NoDashboardAccess)
    ensures FirstDenial(props, user).Some? && FirstDenial(props, user).value.InsufficientRole? ==>
      (props.requireAuth ==> user.Some?) && (props.requireDashboardAccess ==> CanAccessDashboard(user))
  {
    SpreadDecidesLikeUser(user, Viewer);
  }

  /** What the component renders. */
  datatype View = Spinner | Children | Fallback | SignInPanel | DashboardDeniedPanel | RoleDeniedPanel(message: string)

  /** The text of the role panel: "You need <role with its first '_' as a space> privileges to access this page." */
  function RoleDeniedMessage(r: Role): string {
    "You need " + ReplaceFirst(RoleName(r), '_', ' ') + " privileges to access this page."
  }

  /** The render path: a spinner while loading, then the first denial's panel (or the fallback), else the children. */
  function Render(props: Props, loading: bool, user: Option<User>): View {
    if loading then Spinner
    else
      match FirstDenial(props, user)
      case None => Children
      case Some(d) =>
        if props.hasFallback then Fallback
        else match d
          case NotSignedIn => SignInPanel
          case NoDashboardAccess => DashboardDeniedPanel
          case InsufficientRole(r) => RoleDeniedPanel(RoleDeniedMessage(r))
  }

  /** The redirect effect: nothing while loading, the sign-in page for a missing user, the home page for the other denials. */
  function Redirect(props: Props, loading: bool, user: Option<User>): Option<string> {
    if loading then None
    else
      match FirstDenial(props, user)
      case None => None
      case Some(NotSignedIn) => Some("/auth/signin")
      case Some(_) => Some("/")
  }

  /** While the session is loading, a spinner renders and nothing redirects. */
  lemma LoadingShowsSpinner(props: Props, user: Option<User>)
    ensures Render(props, true, user) == Spinner && Redirect(props, true, user).None?
  {
  }

  /** Once loaded, the children render exactly when every enabled check passes. */
  lemma ChildrenIffAllChecksPass(props: Props, user: Option<User>)
    ensures Render(props, false, user) == Children <==>
      && (props.requireAuth ==> user.Some?)
      && (props.requireDashboardAccess ==> CanAccessDashboard(user))
      && (props.requiredRole.Some? ==> HasHigherOrEqualRole(user, props.requiredRole.value))
  {
  }

  /**
   * The render path and the effect agree: the children render exactly when
   * nothing redirects, and a panel that asks to sign in comes with the
   * redirect to the sign-in page.
   */
  lemma RenderAgreesWithRedirect(props: Props, loading: bool, user: Option<User>)
    ensures Render(props, loading, user) == Children <==> !loading && Redirect(props, loading, user).None?
    ensures Render(props, loading, user) == SignInPanel ==> Redirect(props, loading, user) == Some("/auth/signin")
    ensures Render(props, loading, user) == DashboardDeniedPanel ==> Redirect(props, loading, user) == Some("/")
    ensures Render(props, loading, user).RoleDeniedPanel? ==> Redirect(props, loading, user) == Some("/")
    ensures Render(props, loading, user) == Fallback ==> Redirect(props, loading, user).Some?
  {
  }

  /** With the default props, a signed-out visitor is sent to sign in and a signed-in user passes unless a role is required. */
  lemma DefaultPropsDecisions(requiredRole: Option<Role>, user: Option<User>)
    ensures user.None? ==> Redirect(DefaultProps(requiredRole), false, user) == Some("/auth/signin")
    ensures user.Some? && requiredRole.None? ==> Render(DefaultProps(requiredRole), false, user) == Children
  {
  }

  /** The pages the router has been sent to. */
  class Router {
    var pushed: seq<string>

    constructor ()
      ensures pushed == []
    {
      pushed := [];
    }

    method Push(path: string)
      modifies this
      ensures pushed == old(pushed) + [path]
    {
      pushed := pushed + [path];
    }
  }

  /** The component's effect: pushes the redirect target, if any, and nothing else. */
  method CheckAccess(router: Router, props: Props, loading: bool, user: Option<User>)
    modifies router
    ensures router.pushed == old(router.pushed) + (if Redirect(props, loading, user).Some? then [Redirect(props, loading, user).value] else [])
    ensures Render(props, loading, user) == Children ==> router.pushed == old(router.pushed)
  {
    if !loading {
      if props.requireAuth && user.None? {
        router.Push("/auth/signin");
        return;
      }
      if props.requireDashboardAccess && !CanAccessDashboard(Some(Spread(user))) {
        router.Push("/");
        return;
      }
      if props.requiredRole.Some? && !HasHigherOrEqualRole(Some(Spread(user)), props.requiredRole.value) {
        router.Push("/");
        return;
      }
    }
  }
}
