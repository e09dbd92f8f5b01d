// The route guard of the client: a spinner while the session is being
// restored, a redirect to the landing page without a user, the guarded page
// otherwise.

module ProtectedRoute {
  import opened Types

  /** What the guard renders. */
  datatype View<E> = LoadingView | Redirect(to: string, replace: bool) | Element(page: E)

  /** The optional `isLoading` prop, `false` when left out. */
  function LoadingFlag(isLoading: Option<bool>): (b: bool)
    ensures b <==> isLoading == Some(true)
  {
    if isLoading.Some? then isLoading.value else false
  }

  /** `ProtectedRoute`. `user` is None for `null`; any user object is
      truthy. */
  function Guard<E, U>(element: E, user: Option<U>, isLoading: Option<bool>): (v: View<E>)
    ensures v.LoadingView? <==> isLoading == Some(true)
    ensures v.Redirect? <==> isLoading != Some(true) && user.None?
    ensures v.Redirect? ==> v.to == "/" && v.replace
    ensures v.Element? <==> isLoading != Some(true) && user.Some?
    ensures v.Element? ==> v.page == element
  {
    if LoadingFlag(isLoading) then LoadingView
    else if user.None? then Redirect("/", true)
    else Element(element)
  }
}
