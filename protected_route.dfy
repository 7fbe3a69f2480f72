/**
 * client/src/components/common/ProtectedRoute.tsx: what a guarded route
 * renders, from the auth state and the optional list of allowed roles.
 */
module ProtectedRoute {
  import opened Options
  import opened Schemas

  datatype Outcome = Spinner | Redirect(to: string) | Children

  const LoginPath: string := "/login"
  const HomePath: string := "/"

  /**
   * The guard: a spinner while loading, the login page without a user, the
   * home page for a role outside a given list (an empty list admits nobody),
   * and the children otherwise.
   */
  function Decide(loading: bool, user: Option<Account>, allowedRoles: Option<seq<Role>>): (o: Outcome)
    ensures loading ==> o == Spinner
    ensures !loading && user.None? ==> o == Redirect(LoginPath)
    ensures !loading && user.Some? && allowedRoles.Some? && user.value.role !in allowedRoles.value
            ==> o == Redirect(HomePath)
    ensures o == Children <==>
      !loading && user.Some? && (allowedRoles.None? || user.value.role in allowedRoles.value)
  {
    if loading then Spinner
    else if user.None? then Redirect(LoginPath)
    else if allowedRoles.Some? && user.value.role !in allowedRoles.value then Redirect(HomePath)
    else Children
  }

  /** Without a role list, every logged-in user gets through once loading is over. */
  lemma AnyRoleWithoutList(user: Account)
    ensures Decide(false, Some(user), None) == Children
  {
  }

  /** A route open to experts only sends a farmer home and lets an expert in. */
  lemma ExpertOnly(u: Account)
    ensures Decide(false, Some(u), Some([Expert])) == if u.role == Expert then Children else Redirect(HomePath)
  {
  }
}
