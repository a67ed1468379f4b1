/** The access gate every dashboard page sits behind
    (src/layouts/dashboard-layout.tsx). Its effect may navigate and its
    render may show the layout; the two are independent, so on a role
    mismatch the layout is rendered AND a redirect to `/dashboard` is
    issued. */
module DashboardLayout {
  import opened Seqs
  import opened Types
  import AuthContext

  datatype Path = LoginPath | DashboardPath

  datatype LayoutDecision = LayoutDecision(redirect: Option<Path>, renders: bool)

  /** `requiredRole && user?.role !== requiredRole`: a present, non-empty
      required role that the user (if any) does not have. An empty string is
      falsy and requires nothing. */
  predicate RoleMismatch(user: Option<User>, requiredRole: Option<string>) {
    requiredRole.Some? && requiredRole.value != "" && (user.None? || user.value.role.Name() != requiredRole.value)
  }

  /** The effect's navigation and whether the children are rendered. */
  function Decide(isAuthenticated: bool, user: Option<User>, requiredRole: Option<string>): (d: LayoutDecision)
    ensures d.renders <==> isAuthenticated
    ensures d.redirect == Some(LoginPath) <==> !isAuthenticated
    ensures d.redirect == Some(DashboardPath) <==> isAuthenticated && RoleMismatch(user, requiredRole)
    ensures d.redirect.None? <==> isAuthenticated && !RoleMismatch(user, requiredRole)
  {
    if !isAuthenticated then LayoutDecision(Some(LoginPath), false)
    else if RoleMismatch(user, requiredRole) then LayoutDecision(Some(DashboardPath), true)
    else LayoutDecision(None, true)
  }

  /** A page without a required role shows every signed-in visitor without a
      redirect, and a signed-out visitor is never sent to `/dashboard`. */
  lemma OpenPages(isAuthenticated: bool, user: Option<User>)
    ensures isAuthenticated ==> Decide(isAuthenticated, user, None) == LayoutDecision(None, true)
    ensures Decide(false, user, None).redirect != Some(DashboardPath)
  {
  }

  /** Through the session: a successful login with role `role` lets the
      visitor stay on a page that requires `role`, and after a logout every
      page sends the visitor to `/login` and renders nothing. */
  lemma {:induction false} GateAfterSession(s: AuthContext.SessionState, username: string, password: string, role: string, required: Option<string>)
    ensures var (t, ok) := AuthContext.AfterLogin(s, username, password, role);
      ok ==> Decide(t.isAuthenticated, t.user, Some(role)) == LayoutDecision(None, true)
    ensures var t := AuthContext.AfterLogout(s);
      Decide(t.isAuthenticated, t.user, required) == LayoutDecision(Some(LoginPath), false)
  {
    var (t, ok) := AuthContext.AfterLogin(s, username, password, role);
    if ok {
      assert t.user.value.role.Name() == role;
      assert !RoleMismatch(t.user, Some(role));
    }
  }
}
