/**
 * The browser-side session: the two localStorage entries `firebase_jwt` and
 * `firebase_jwt_expires_at`, and whether the identity provider currently has a
 * signed-in user (`auth.currentUser`). Every authentication transition of the
 * application reads and writes this one object.
 */
module Session {
  import opened Wrappers
  import opened Text

  /** The two localStorage keys the application uses. */
  datatype Key = Jwt | JwtExpiresAt

  function KeyName(k: Key): string {
    match k
    case Jwt => "firebase_jwt"
    case JwtExpiresAt => "firebase_jwt_expires_at"
  }

  /** Four hours in milliseconds (`4 * 60 * 60 * 1000`). */
  const SessionLifetimeMs: nat := 14_400_000

  /** A snapshot of the whole session. */
  datatype SessionState = SessionState(token: Option<string>, expiresAt: Option<string>, hasUser: bool)

  /** JavaScript truthiness of a `localStorage.getItem` result: present and non-empty. */
  predicate Truthy(v: Option<string>) {
    v.Some? && v.value != ""
  }

  /** Both keys removed, the identity provider untouched. */
  function Cleared(st: SessionState): (r: SessionState)
    ensures r.token.None? && r.expiresAt.None? && r.hasUser == st.hasUser
  {
    st.(token := None, expiresAt := None)
  }

  /** The expiry string written for a refresh at clock reading `now`. */
  function ExpiryFor(now: nat): (r: string)
    ensures JsNumber(r) == Some(now + SessionLifetimeMs)
    ensures JsParseInt(r) == Some(now + SessionLifetimeMs)
  {
    ReadBackNatToString(now + SessionLifetimeMs);
    NatToString(now + SessionLifetimeMs)
  }

  class Store {
    var token: Option<string>
    var expiresAt: Option<string>
    var hasUser: bool

    function State(): SessionState
      reads this
    {
      SessionState(token, expiresAt, hasUser)
    }

    constructor (st: SessionState)
      ensures State() == st
    {
      token, expiresAt, hasUser := st.token, st.expiresAt, st.hasUser;
    }

    /** `localStorage.getItem(KeyName(k))`. */
    function GetItem(k: Key): (v: Option<string>)
      reads this
      ensures v == if k == Jwt then token else expiresAt
    {
      match k
      case Jwt => token
      case JwtExpiresAt => expiresAt
    }

    /** `localStorage.setItem(KeyName(k), v)`: only that key changes. */
    method SetItem(k: Key, v: string)
      modifies this
      ensures GetItem(k) == Some(v)
      ensures k == Jwt ==> expiresAt == old(expiresAt)
      ensures k == JwtExpiresAt ==> token == old(token)
      ensures hasUser == old(hasUser)
    {
      if k == Jwt { token := Some(v); } else { expiresAt := Some(v); }
    }

    /** `localStorage.removeItem(KeyName(k))`: only that key changes. */
    method RemoveItem(k: Key)
      modifies this
      ensures GetItem(k) == None
      ensures k == Jwt ==> expiresAt == old(expiresAt)
      ensures k == JwtExpiresAt ==> token == old(token)
      ensures hasUser == old(hasUser)
    {
      if k == Jwt { token := None; } else { expiresAt := None; }
    }

    /** The identity provider's `signOut()`; `ok` is whether it resolved. */
    method SignOut(ok: bool)
      modifies this
      ensures hasUser == (old(hasUser) && !ok)
      ensures token == old(token) && expiresAt == old(expiresAt)
    {
      if ok { hasUser := false; }
    }

    /** The identity provider completing a sign-in. */
    method SignIn()
      modifies this
      ensures hasUser
      ensures token == old(token) && expiresAt == old(expiresAt)
    {
      hasUser := true;
    }
  }
}
