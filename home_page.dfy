/** The root page (src/app/page.tsx): it only decides where to send the visitor. */
module HomePage {
  import opened Js
  import opened Types

  /** The path pushed by the page's effect for the session flags. */
  function Redirect(isAuthenticated: bool, user: Option<User>): (path: string)
    ensures path == "/login" <==> !(isAuthenticated && user.Some?)
    ensures isAuthenticated && user.Some? ==> (path == "/doctor/dashboard" <==> user.value.role == DOCTOR)
    ensures path == "/login" || path == "/doctor/dashboard" || path == "/patient/dashboard"
  {
    if isAuthenticated && user.Some? then
      (if user.value.role == DOCTOR then "/doctor/dashboard" else "/patient/dashboard")
    else "/login"
  }

  /** An authenticated flag with no user still goes to the login page. */
  lemma AuthenticatedWithoutUserGoesToLogin()
    ensures Redirect(true, None) == "/login"
  {
  }
}
