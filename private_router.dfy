/** The gate in front of every private route. */
module PrivateRouter {
  import opened Js
  import opened Records

  /** What the gate renders: the placeholder, the protected page, or a
      redirect to the login page carrying the path the visitor wanted. */
  datatype Gate = Loading | Children | Redirect(to: string, state: string)

  const LoginPath := "/auth/login"

  /** `PrivateRouter`: loading first, then a signed-in user with an email. */
  function Guard(loading: bool, user: Option<AuthUser>, pathname: string): (g: Gate)
    ensures loading ==> g == Loading
    ensures g == Children <==> !loading && Truthy(EmailOf(user))
    ensures g.Redirect? <==> !loading && !Truthy(EmailOf(user))
    ensures g.Redirect? ==> g.to == LoginPath && g.state == pathname
  {
    if loading then Loading
    else if user.Some? && Truthy(user.value.email) then Children
    else Redirect(LoginPath, pathname)
  }

  /** An account without an email, or with an empty one, is turned away exactly
      like a visitor who has not signed in. */
  lemma NoEmailIsNoUser(loading: bool, u: AuthUser, pathname: string)
    requires !Truthy(u.email)
    ensures Guard(loading, Some(u), pathname) == Guard(loading, None, pathname)
  {
  }
}
