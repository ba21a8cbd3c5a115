/**
 * The header bar: the user fetch (only with a stored token), the display-name
 * and avatar-initial fallbacks, and the logout handler.
 */
module AppHeader {
  import opened Wrappers
  import opened Session

  /** The header fetches the user only when a non-empty token is stored. */
  predicate ShouldFetchUser(token: Option<string>) {
    Truthy(token)
  }

  /** How the user request ended: rejected, a non-2xx status, or a body whose `name` is a string or absent. */
  datatype UserReply = FetchFailed | NotOk | Body(name: Option<string>)

  const DefaultName := "User"

  /** `data.name || "User"`, with every failure caught as `"User"`. */
  function DisplayName(reply: UserReply): (n: string)
    ensures n != ""
    ensures n == DefaultName || reply == Body(Some(n))
    ensures reply.Body? && reply.name.Some? && reply.name.value != "" ==> n == reply.name.value
  {
    match reply
    case Body(Some(name)) => if name != "" then name else DefaultName
    case _ => DefaultName
  }

  /** `user?.name?.[0] || "U"`: `user` is `None` until the fetch settles. */
  function AvatarInitial(user: Option<string>): (r: string)
    ensures |r| == 1
    ensures user.Some? && user.value != "" ==> r[0] == user.value[0]
    ensures r != "U" ==> user.Some? && user.value != "" && r[0] == user.value[0]
  {
    if user.Some? && user.value != "" then [user.value[0]] else "U"
  }

  /** `user?.name || "User"`. */
  function MenuLabel(user: Option<string>): (r: string)
    ensures r != ""
    ensures r == DefaultName || user == Some(r)
    ensures user.Some? && user.value != "" ==> r == user.value
  {
    if user.Some? && user.value != "" then user.value else DefaultName
  }

  /** Once the fetch has settled, the initial is the first letter of the label. */
  lemma InitialOfLabel(reply: UserReply)
    ensures AvatarInitial(Some(DisplayName(reply))) == [MenuLabel(Some(DisplayName(reply)))[0]]
  {
  }

  class Header {
    /** `user`: the fetched name, `None` until the fetch settles. */
    var user: Option<string>

    constructor ()
      ensures user.None?
    {
      user := None;
    }

    /** The mount effect; `reply` is only consulted when a request is made. */
    method Mount(token: Option<string>, reply: UserReply) returns (fetched: bool)
      modifies this
      ensures fetched == ShouldFetchUser(token)
      ensures user == if fetched then Some(DisplayName(reply)) else old(user)
    {
      fetched := ShouldFetchUser(token);
      if !fetched {
        return;
      }
      user := Some(DisplayName(reply));
    }
  }

  /**
   * The logout handler: `await signOut(auth)` is outside any try, so when it
   * rejects the keys stay and no redirect happens.
   */
  function LogoutStep(st: SessionState, signOutOk: bool): (r: (Option<string>, SessionState))
    ensures signOutOk ==> r == (Some("/login"), SessionState(None, None, false))
    ensures !signOutOk ==> r == (None, st)
  {
    if signOutOk then (Some("/login"), SessionState(None, None, false)) else (None, st)
  }

  method Logout(s: Store, signOutOk: bool) returns (redirect: Option<string>)
    modifies s
    ensures (redirect, s.State()) == LogoutStep(old(s.State()), signOutOk)
  {
    s.SignOut(signOutOk);
    if !signOutOk {
      return None;
    }
    s.RemoveItem(Jwt);
    s.RemoveItem(JwtExpiresAt);
    redirect := Some("/login");
  }
}
