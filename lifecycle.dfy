/**
 * Properties of sequences of session transitions: a refresh keeps the session
 * alive for exactly four hours under both expiry readers, back-to-back
 * notifications never sign out, a renewed login refreshes on its first 401, a
 * logout leaves nothing to retry with, and where the two expiry readers part.
 */
module Lifecycle {
  import opened Wrappers
  import opened Text
  import opened Session
  import opened FetchWithAuth
  import opened App
  import opened LoginPage
  import opened AppHeader

  /** An expiry the application wrote at `written` expires, for both readers, strictly after four hours. */
  lemma WrittenExpiryBoundary(written: nat, later: nat)
    ensures ExpiredOnTokenChange(Some(ExpiryFor(written)), later) <==> later > written + SessionLifetimeMs
    ensures ExpiredOnRetry(Some(ExpiryFor(written)), later) <==> later > written + SessionLifetimeMs
  {
  }

  /** After a notification refreshed the session, a second one within four hours refreshes again and never signs out. */
  lemma BackToBackNotifications(st: SessionState, check1: nat, token1: string, write1: nat,
                                check2: nat, token2: string, write2: nat, ok1: bool, ok2: bool)
    requires st.hasUser && !ExpiredOnTokenChange(st.expiresAt, check1)
    requires check2 <= write1 + SessionLifetimeMs
    ensures var e1 := TokenChangedStep(st, check1, Some(token1), write1, ok1);
            var e2 := TokenChangedStep(e1.after, check2, Some(token2), write2, ok2);
            && !e1.signOutCalled && !e2.signOutCalled
            && e2.after == SessionState(Some(token2), Some(ExpiryFor(write2)), true)
  {
  }

  /** A later write never moves the expiry backwards. */
  lemma ExpiryMonotone(write1: nat, write2: nat)
    requires write1 <= write2
    ensures JsNumber(ExpiryFor(write1)).value <= JsNumber(ExpiryFor(write2)).value
  {
  }

  /** A 401 refresh inside `fetchWithAuth` leaves a session the notification handler treats as live for four hours. */
  lemma RefreshThenNotification(st: SessionState, input: string, init: Init, first: Response, now: nat,
                                signOutOk: bool, renewed: string, nowRefresh: nat, retry: Option<Response>,
                                check: nat, idToken: string, write: nat, ok: bool)
    requires first.status == Unauthorized && st.hasUser && !ExpiredOnRetry(st.expiresAt, now)
    requires check <= nowRefresh + SessionLifetimeMs
    ensures var e := FetchStep(st, input, init, Some(first), now, signOutOk, Some(renewed), nowRefresh, retry);
            && e.after.token == Some(renewed)
            && !TokenChangedStep(e.after, check, Some(idToken), write, ok).signOutCalled
  {
  }

  /** A login on a cleared session stores no expiry, so its first 401 goes down the refresh path and retries. */
  lemma LoginThenUnauthorized(st: SessionState, pin: string, idToken: string, input: string, init: Init,
                              first: Response, now: nat, signOutOk: bool, renewed: string, nowRefresh: nat,
                              retry: Response)
    requires st.expiresAt.None? && PinAccepted(pin)
    requires first.status == Unauthorized
    ensures var (outcome, after) := OtpSubmitStep(st, pin, true, true, Some(idToken));
            && outcome == LoggedIn("/balance-sheet")
            && after == SessionState(Some(idToken), None, true)
            && var e := FetchStep(after, input, init, Some(first), now, signOutOk, Some(renewed), nowRefresh, Some(retry));
               |e.sent| == 2 && e.result == Returned(retry)
               && e.sent[0].init.headers.value["Authorization"] == "Bearer " + idToken
               && e.sent[1].init.headers.value["Authorization"] == "Bearer " + renewed
  {
  }

  /** After a completed logout a request carries `Bearer null` and a 401 is returned as it is, with no retry. */
  lemma LogoutThenFetch(st: SessionState, input: string, init: Init, first: Response, now: nat,
                        signOutOk: bool, renewed: Option<string>, nowRefresh: nat, retry: Option<Response>)
    ensures var (redirect, after) := LogoutStep(st, true);
            && redirect == Some("/login")
            && var e := FetchStep(after, input, init, Some(first), now, signOutOk, renewed, nowRefresh, retry);
               && e.sent == [Request(input, WithAuth(init, None))]
               && e.sent[0].init.headers.value["Authorization"] == "Bearer null"
               && e.result == Returned(first) && e.after == after
  {
  }

  /**
   * The two readers disagree on stored values the application never writes:
   * `"0"` is expired for `Number` (any positive clock) and live for `parseInt`
   * (0 is falsy); `"12abc"` is NaN for `Number` and 12 for `parseInt`.
   */
  lemma ReadersDisagree()
    ensures ExpiredOnRetry(Some("0"), 1) && !ExpiredOnTokenChange(Some("0"), 1)
    ensures !ExpiredOnRetry(Some("12abc"), 13) && ExpiredOnTokenChange(Some("12abc"), 13)
  {
  }
}
