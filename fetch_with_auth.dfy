/**
 * `fetchWithAuth`: sends a request with `Authorization: Bearer <token>`
 * (section 2.1 of RFC 6750) taken from the session; on a 401 while the
 * identity provider has a user, either ends an expired session or
 * force-refreshes the token and retries exactly once.
 *
 * Everything the function awaits from outside is an input: the server's reply
 * to each request, the clock readings, the force-refreshed token (`None` when
 * `getIdToken(true)` rejects) and whether `signOut()` resolves.
 */
module FetchWithAuth {
  import opened Wrappers
  import opened Text
  import opened Session

  /** The caller's `RequestInit`: its headers (`undefined` is `None`), its `method` and `body`, kept as they are. */
  datatype Init = Init(headers: Option<map<string, string>>, verb: string, body: Option<string>)

  datatype Request = Request(input: string, init: Init)

  datatype Response = Response(status: int, body: string)

  /** How the call settles: with a response, or rejected because a `fetch` or the forced refresh rejected. */
  datatype CallResult = Returned(response: Response) | Rejected

  /** Everything one call does: its result, the requests sent in order, the side effects and the new session. */
  datatype Effects = Effects(
    result: CallResult,
    sent: seq<Request>,
    signOutCalled: bool,
    redirect: Option<string>,
    after: SessionState)

  const Unauthorized := 401

  /** The header value: a template literal prints a missing token as `null`. */
  function BearerValue(token: Option<string>): (v: string)
    ensures |v| >= 7 && v[..7] == "Bearer "
    ensures token.Some? ==> v[7..] == token.value
    ensures token.None? ==> v[7..] == "null"
  {
    "Bearer " + (match token case Some(t) => t case None => "null")
  }

  /** `withAuth`: the caller's init with the Authorization header set, overriding any caller value. */
  function WithAuth(init: Init, token: Option<string>): (r: Init)
    ensures r.verb == init.verb && r.body == init.body
    ensures r.headers.Some?
    ensures r.headers.value.Keys == init.headers.GetOr(map[]).Keys + {"Authorization"}
    ensures r.headers.value["Authorization"] == BearerValue(token)
    ensures forall k :: k in init.headers.GetOr(map[]) && k != "Authorization" ==>
              r.headers.value[k] == init.headers.GetOr(map[])[k]
  {
    init.(headers := Some(init.headers.GetOr(map[])["Authorization" := BearerValue(token)]))
  }

  /** The expiry test of `fetchWithAuth.ts` line 27: `expiresAt && now > Number(expiresAt)`; NaN compares false. */
  predicate ExpiredOnRetry(expiresAt: Option<string>, now: nat): (b: bool)
    // only a non-empty, all-digit value that lies in the past counts as expired
    ensures b <==> expiresAt.Some? && expiresAt.value != "" && AllDigits(expiresAt.value) &&
                   now > DigitsValue(expiresAt.value)
  {
    Truthy(expiresAt) &&
    match JsNumber(expiresAt.value)
    case Some(v) => now > v
    case None => false
  }

  /** The first reply is a 401 and the identity provider has a user: the wrapper's recovery path. */
  predicate Challenged(st: SessionState, first: Option<Response>) {
    first.Some? && first.value.status == Unauthorized && st.hasUser
  }

  /**
   * What one call of `fetchWithAuth` does, as a function of the session before it and the outside answers.
   * A reply of `None` is a `fetch` that rejected; the rejection propagates to the caller.
   */
  function FetchStep(st: SessionState, input: string, init: Init, first: Option<Response>, now: nat,
                     signOutOk: bool, refreshed: Option<string>, nowRefresh: nat, retry: Option<Response>): (e: Effects)
    // the first request always goes out, with whatever token is stored
    ensures 1 <= |e.sent| <= 2
    ensures e.sent[0] == Request(input, WithAuth(init, st.token))
    // the first fetch rejects: the call rejects with the session untouched
    ensures first.None? ==> e == Effects(Rejected, [e.sent[0]], false, None, st)
    // not a 401, or no user: one request, the reply unchanged, nothing else touched
    ensures first.Some? && !Challenged(st, first) ==>
              e == Effects(Returned(first.value), [e.sent[0]], false, None, st)
    // expired: sign-out attempted (failure swallowed), both keys removed, redirect, the original 401 returned
    ensures Challenged(st, first) && ExpiredOnRetry(st.expiresAt, now) ==>
              && e.result == Returned(first.value) && |e.sent| == 1
              && e.signOutCalled && e.redirect == Some("/login")
              && e.after == SessionState(None, None, !signOutOk)
    // otherwise: refresh and retry once, whatever the retry's status; the new keys stay even when the retry rejects
    ensures Challenged(st, first) && !ExpiredOnRetry(st.expiresAt, now) ==>
              && !e.signOutCalled && e.redirect.None?
              && (refreshed.None? ==> e.result == Rejected && |e.sent| == 1 && e.after == st)
              && (refreshed.Some? ==>
                    && e.result == (if retry.Some? then Returned(retry.value) else Rejected)
                    && e.sent == [e.sent[0], Request(input, WithAuth(init, refreshed))]
                    && e.after == SessionState(refreshed, Some(ExpiryFor(nowRefresh)), true))
    // a second request is sent exactly when the refresh path got a fresh token
    ensures |e.sent| == 2 <==> Challenged(st, first) && !ExpiredOnRetry(st.expiresAt, now) && refreshed.Some?
    // the call settles with a response exactly when every awaited fetch and refresh resolved
    ensures e.result.Rejected? <==>
              first.None? || (Challenged(st, first) && !ExpiredOnRetry(st.expiresAt, now) &&
                              (refreshed.None? || retry.None?))
  {
    var req := Request(input, WithAuth(init, st.token));
    match first
    case None => Effects(Rejected, [req], false, None, st)
    case Some(res) =>
      if res.status == Unauthorized && st.hasUser then
        if ExpiredOnRetry(st.expiresAt, now) then
          Effects(Returned(res), [req], true, Some("/login"), SessionState(None, None, !signOutOk))
        else if refreshed.None? then
          Effects(Rejected, [req], false, None, st)
        else
          var after := SessionState(refreshed, Some(ExpiryFor(nowRefresh)), true);
          var result := if retry.Some? then Returned(retry.value) else Rejected;
          Effects(result, [req, Request(input, WithAuth(init, refreshed))], false, None, after)
      else
        Effects(Returned(res), [req], false, None, st)
  }

  /** The wrapper itself, step by step as the source runs it. */
  method Fetch(s: Store, input: string, init: Init, first: Option<Response>, now: nat,
               signOutOk: bool, refreshed: Option<string>, nowRefresh: nat, retry: Option<Response>)
    returns (result: CallResult, sent: seq<Request>, signOutCalled: bool, redirect: Option<string>)
    modifies s
    ensures Effects(result, sent, signOutCalled, redirect, s.State())
            == FetchStep(old(s.State()), input, init, first, now, signOutOk, refreshed, nowRefresh, retry)
  {
    ghost var st := s.State();
    var token := s.GetItem(Jwt);
    var req := Request(input, WithAuth(init, token));
    sent := [req];
    signOutCalled, redirect := false, None;
    if first.None? {
      result := Rejected;
      return;
    }
    var res := first.value;
    if res.status == Unauthorized && s.hasUser {
      var expiresAt := s.GetItem(JwtExpiresAt);
      if ExpiredOnRetry(expiresAt, now) {
        signOutCalled := true;
        s.SignOut(signOutOk);
        s.RemoveItem(Jwt);
        s.RemoveItem(JwtExpiresAt);
        redirect := Some("/login");
        result := Returned(res);
        assert s.State() == SessionState(None, None, !signOutOk);
        return;
      } else {
        if refreshed.None? {
          result := Rejected;
          return;
        }
        token := refreshed;
        s.SetItem(Jwt, token.value);
        var newExpiry := nowRefresh + SessionLifetimeMs;
        s.SetItem(JwtExpiresAt, NatToString(newExpiry));
        assert s.State() == SessionState(refreshed, Some(ExpiryFor(nowRefresh)), true);
        sent := [req, Request(input, WithAuth(init, token))];
        if retry.None? {
          result := Rejected;
          return;
        }
        res := retry.value;
      }
    }
    result := Returned(res);
  }
}
