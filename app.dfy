/**
 * The application shell: the `onIdTokenChanged` handler that keeps the stored
 * session in step with the identity provider, the `/login` route's
 * `LoginOrRedirect`, and the route table.
 */
module App {
  import opened Wrappers
  import opened Text
  import opened Session

  /** The expiry test of `App.tsx` lines 26-27: `parseInt` (missing is 0), then `expiresAt && now > expiresAt`; 0 and NaN are falsy. */
  predicate ExpiredOnTokenChange(expiresAt: Option<string>, now: nat): (b: bool)
    // expired only when the stored value starts with digits whose value is non-zero and in the past
    ensures b <==> expiresAt.Some? && expiresAt.value != "" && IsDigit(expiresAt.value[0]) &&
                   var v := DigitsValue(LeadingDigits(expiresAt.value)); v != 0 && now > v
  {
    var parsed := if Truthy(expiresAt) then JsParseInt(expiresAt.value) else Some(0);
    parsed.Some? && parsed.value != 0 && now > parsed.value
  }

  /** What one notification does: whether `signOut` was called, whether `getIdToken` rejected, and the new session. */
  datatype HandlerEffects = HandlerEffects(signOutCalled: bool, rejected: bool, after: SessionState)

  /**
   * The handler for one notification. `st.hasUser` is the user the
   * notification carries; `nowCheck` and `nowWrite` are the two clock readings;
   * `idToken` is what `getIdToken()` (not forced) resolves to, `None` if it rejects.
   */
  function TokenChangedStep(st: SessionState, nowCheck: nat, idToken: Option<string>,
                            nowWrite: nat, signOutOk: bool): (e: HandlerEffects)
    // no user: both keys removed, nothing else
    ensures !st.hasUser ==> e == HandlerEffects(false, false, Cleared(st))
    // a user and an expired session: both keys removed, signOut called, no token written
    ensures st.hasUser && ExpiredOnTokenChange(st.expiresAt, nowCheck) ==>
              e.signOutCalled && !e.rejected && e.after == SessionState(None, None, !signOutOk)
    // a user and a live session: the token and an expiry four hours after the write
    ensures st.hasUser && !ExpiredOnTokenChange(st.expiresAt, nowCheck) ==>
              && !e.signOutCalled
              && (idToken.None? ==> e.rejected && e.after == st)
              && (idToken.Some? ==> !e.rejected && e.after == SessionState(idToken, Some(ExpiryFor(nowWrite)), true))
    // the two keys change together: either both are removed, or neither is
    ensures e.after.token.None? && st.token.Some? ==> e.after.expiresAt.None?
    ensures e.after.expiresAt.None? && st.expiresAt.Some? ==> e.after.token.None?
  {
    if st.hasUser then
      if ExpiredOnTokenChange(st.expiresAt, nowCheck) then
        HandlerEffects(true, false, SessionState(None, None, !signOutOk))
      else if idToken.None? then
        HandlerEffects(false, true, st)
      else
        HandlerEffects(false, false, SessionState(idToken, Some(ExpiryFor(nowWrite)), true))
    else
      HandlerEffects(false, false, Cleared(st))
  }

  /** The handler as the source runs it, one store operation at a time. */
  method OnIdTokenChanged(s: Store, nowCheck: nat, idToken: Option<string>, nowWrite: nat, signOutOk: bool)
    returns (signOutCalled: bool, rejected: bool)
    modifies s
    ensures HandlerEffects(signOutCalled, rejected, s.State())
            == TokenChangedStep(old(s.State()), nowCheck, idToken, nowWrite, signOutOk)
  {
    signOutCalled, rejected := false, false;
    if s.hasUser {
      var expiresAtStr := s.GetItem(JwtExpiresAt);
      if ExpiredOnTokenChange(expiresAtStr, nowCheck) {
        s.RemoveItem(Jwt);
        s.RemoveItem(JwtExpiresAt);
        signOutCalled := true;
        s.SignOut(signOutOk);
        return;
      }
      if idToken.None? {
        rejected := true;
        return;
      }
      var newExpiresAt := nowWrite + SessionLifetimeMs;
      s.SetItem(Jwt, idToken.value);
      s.SetItem(JwtExpiresAt, NatToString(newExpiresAt));
    } else {
      s.RemoveItem(Jwt);
      s.RemoveItem(JwtExpiresAt);
    }
  }

  /** The boundary of the expiry test for a stored value the application wrote itself. */
  lemma ExpiryBoundary(expiry: nat, now: nat)
    ensures ExpiredOnTokenChange(Some(NatToString(expiry)), now) <==> expiry != 0 && now > expiry
  {
    ReadBackNatToString(expiry);
  }

  /** What the router renders. */
  datatype Page = BalanceSheetPage | TransactionsPage | FileStatementsPage
  datatype Screen = LoginScreen | NavigateTo(path: string) | Guarded(page: Page) | NoMatch

  /** `LoginOrRedirect`: straight to the balance sheet when a non-empty token is stored. */
  function LoginOrRedirect(token: Option<string>): (r: Screen)
    ensures r == NavigateTo("/balance-sheet") <==> Truthy(token)
    ensures r == LoginScreen <==> !Truthy(token)
  {
    if Truthy(token) then NavigateTo("/balance-sheet") else LoginScreen
  }

  /** The route table. */
  function Route(path: string, token: Option<string>): (r: Screen)
    ensures path == "/" ==> r == NavigateTo("/login")
    ensures path == "/login" ==> r == LoginOrRedirect(token)
    ensures r.Guarded? <==> path in {"/balance-sheet", "/transactions", "/file-statements"}
  {
    if path == "/login" then LoginOrRedirect(token)
    else if path == "/balance-sheet" then Guarded(BalanceSheetPage)
    else if path == "/transactions" then Guarded(TransactionsPage)
    else if path == "/file-statements" then Guarded(FileStatementsPage)
    else if path == "/" then NavigateTo("/login")
    else NoMatch
  }
}
