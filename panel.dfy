/**
 * The access gate of the interview panel page (app/panel/page.tsx): the
 * redirect effect and the render guards over the loading flag, the token
 * check and the user's role.
 */
module Panel {
  import opened Wrappers
  import Auth

  /** The route users without panel access are sent to. */
  const DashboardRoute: string := "/dashboard"
  /** The roles allowed on the panel page. */
  const PanelRoles: seq<string> := ["panelist", "ta_admin"]

  /** What the page renders. */
  datatype View = Spinner | Nothing | PanelContent

  /** One evaluation of the page: the routes pushed by its effect and what it renders. */
  datatype Evaluation = Evaluation(pushes: seq<string>, view: View)

  /**
   * The effect: the `router.push` calls it makes, in order. `validToken` is the
   * value of `hasValidToken()`, taken to be the same at each call.
   */
  function EffectPushes(isLoading: bool, validToken: bool, role: string): seq<string>
  {
    if !isLoading && !validToken then [Auth.LoginRoute]
    else
      var userRole := role;
      if !isLoading && validToken && userRole !in PanelRoles then [DashboardRoute] else []
  }

  /** The render guards: spinner while loading, nothing without access, else the page. */
  function RenderView(isLoading: bool, validToken: bool, role: string): View
  {
    if isLoading then Spinner
    else if !validToken then Nothing
    else if role !in PanelRoles then Nothing
    else PanelContent
  }

  /**
   * One evaluation of `PanelPage`. The content renders exactly for a settled,
   * token-holding panelist or TA admin; while loading nothing is pushed; at
   * most one redirect is pushed; the page renders nothing exactly when it
   * redirects.
   */
  function Evaluate(isLoading: bool, validToken: bool, role: string): (e: Evaluation)
    ensures e.view == PanelContent <==> !isLoading && validToken && (role == "panelist" || role == "ta_admin")
    ensures isLoading ==> e.view == Spinner && e.pushes == []
    ensures !isLoading && !validToken ==> e.pushes == [Auth.LoginRoute] && e.view == Nothing
    ensures !isLoading && validToken && role != "panelist" && role != "ta_admin" ==>
              e.pushes == [DashboardRoute] && e.view == Nothing
    ensures |e.pushes| <= 1
    ensures e.pushes == [] <==> e.view != Nothing
  {
    Evaluation(EffectPushes(isLoading, validToken, role), RenderView(isLoading, validToken, role))
  }

  /** A session with no stored role (or no session) never sees the panel. */
  lemma DefaultRoleDenied(isLoading: bool, validToken: bool, user: Option<Auth.UserData>)
    requires user.None? || user.value.role == ""
    ensures Evaluate(isLoading, validToken, Auth.UserRole(user)).view != PanelContent
    ensures !isLoading && validToken ==>
              Evaluate(isLoading, validToken, Auth.UserRole(user)).pushes == [DashboardRoute]
  {
  }

  /**
   * The roles the login form stores are never admitted: a user who signed in
   * through the form is always sent to the dashboard once the token is valid.
   */
  lemma LoginFormRolesDenied(isLoading: bool, validToken: bool, role: string)
    requires role in Auth.LoginFormRoles
    ensures Evaluate(isLoading, validToken, role).view != PanelContent
    ensures !isLoading && validToken ==> Evaluate(isLoading, validToken, role).pushes == [DashboardRoute]
  {
  }
}
