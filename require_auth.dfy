/**
 * `RequireAuth`, the guard around the protected pages. Its state starts
 * unknown; an effect that runs on mount and whenever the pathname changes
 * reads the token key (and nothing else) and records whether it is truthy.
 */
module RequireAuth {
  import opened Wrappers
  import opened Session

  datatype Location = Location(pathname: string, search: string, hash: string)

  /** What the guard renders. */
  datatype GuardView =
    | Nothing
    | Redirect(to: string, replace: bool, from: Location)
    | Children

  /** The render: a case split on the guard state. */
  function View(isAuthenticated: Option<bool>, location: Location): (v: GuardView)
    ensures v == Nothing <==> isAuthenticated.None?
    ensures v == Children <==> isAuthenticated == Some(true)
    ensures v.Redirect? <==> isAuthenticated == Some(false)
    ensures v.Redirect? ==> v.to == "/login" && v.replace && v.from == location
  {
    match isAuthenticated
    case None => Nothing
    case Some(true) => Children
    case Some(false) => Redirect("/login", true, location)
  }

  class Guard {
    /** `isAuthenticated`: `None` is the initial `null`. */
    var isAuthenticated: Option<bool>
    /** The pathname the effect last ran for; `None` before the first run. */
    var seenPath: Option<string>

    /** The state is known exactly when the effect has run at least once. */
    predicate Valid()
      reads this
    {
      seenPath.None? <==> isAuthenticated.None?
    }

    constructor ()
      ensures Valid()
      ensures isAuthenticated.None? && seenPath.None?
      ensures Render(Location("", "", "")) == Nothing
    {
      isAuthenticated, seenPath := None, None;
    }

    function Render(location: Location): GuardView
      reads this
    {
      View(isAuthenticated, location)
    }

    /** The effect: re-reads the token key only when the pathname is new. */
    method Navigate(location: Location, token: Option<string>)
      requires Valid()
      modifies this
      ensures Valid()
      ensures seenPath == Some(location.pathname)
      ensures old(seenPath) == Some(location.pathname) ==> isAuthenticated == old(isAuthenticated)
      ensures old(seenPath) != Some(location.pathname) ==> isAuthenticated == Some(Truthy(token))
      ensures isAuthenticated.Some? && Render(location) != Nothing
    {
      if seenPath != Some(location.pathname) {
        isAuthenticated := Some(Truthy(token));
        seenPath := Some(location.pathname);
      }
    }
  }
}
