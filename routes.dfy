/**
 * The route guards: a private route needs a stored token, a paid route needs
 * a token and a stored user whose `isPaid` is truthy. Storage reads are
 * parameters: `None` for a missing item.
 */
module Routes {
  import opened Wrappers
  import Js

  datatype Outcome = RenderChildren | RedirectTo(path: string)

  /** The stored user, as far as the guard looks at it. */
  datatype StoredUser = StoredUser(isPaid: Js.Value)

  /** The signed-in guard: the page with a non-empty token, the login page otherwise. */
  function PrivateRoute(token: Option<string>): (r: Outcome)
    ensures r == RenderChildren <==> Js.PresentText(token)
    ensures r != RenderChildren ==> r == RedirectTo("/login")
  {
    if Js.PresentText(token) then RenderChildren else RedirectTo("/login")
  }

  /**
   * The paid guard: the login page without a token, whatever the user; the
   * upgrade page with a token but no user or one not marked paid; the page otherwise.
   */
  function PrivatePaidRoute(token: Option<string>, user: Option<StoredUser>): (r: Outcome)
    ensures !Js.PresentText(token) ==> r == RedirectTo("/login")
    ensures Js.PresentText(token) && !(user.Some? && Js.Truthy(user.value.isPaid)) ==> r == RedirectTo("/upgrade")
    ensures r == RenderChildren <==> Js.PresentText(token) && user.Some? && Js.Truthy(user.value.isPaid)
  {
    if !Js.PresentText(token) then RedirectTo("/login")
    else if !(user.Some? && Js.Truthy(user.value.isPaid)) then RedirectTo("/upgrade")
    else RenderChildren
  }

  /**
   * The paid guard is stricter than the signed-in guard: it lets through only
   * what the signed-in guard lets through, and sends to the login page exactly
   * when the signed-in guard does.
   */
  lemma PaidRouteStricter(token: Option<string>, user: Option<StoredUser>)
    ensures PrivatePaidRoute(token, user) == RenderChildren ==> PrivateRoute(token) == RenderChildren
    ensures PrivatePaidRoute(token, user) == RedirectTo("/login") <==> PrivateRoute(token) == RedirectTo("/login")
  {
  }
}
