/** The dashboard route's dispatch on the signed-in user's role
    (`src/components/RoleRouter.tsx`). */
module RoleRouter {
  import opened Base
  import opened Types

  /** Where the route leads. A redirect to the login page carries the
      visited location only when nobody is signed in. */
  datatype RouteOutcome = RedirectToLogin(keepsLocation: bool)
                        | AdminDashboardView | TeamDashboardView | UserDashboardView

  function Route(user: Option<User>): (r: RouteOutcome)
    ensures user.None? ==> r == RedirectToLogin(true)
    ensures user.Some? ==>
              (r == AdminDashboardView <==> user.value.role == Admin) &&
              (r == TeamDashboardView <==> user.value.role == Agent) &&
              (r == UserDashboardView <==> user.value.role == Customer) &&
              (r.RedirectToLogin? <==> user.value.role.Unrecognised?)
    ensures r.RedirectToLogin? ==> (r.keepsLocation <==> user.None?)
  {
    if user.None? then RedirectToLogin(true)
    else match user.value.role
      case Admin => AdminDashboardView
      case Agent => TeamDashboardView
      case Customer => UserDashboardView
      case Unrecognised(_) => RedirectToLogin(false)
  }

  /** A profile role read from the database reaches a dashboard exactly
      when it is one of the three known names. */
  lemma RouteOfStoredRole(u: User, text: string)
    requires u.role == ParseRole(text)
    ensures !Route(Some(u)).RedirectToLogin? <==> text in {"admin", "agent", "customer"}
  {
  }
}
