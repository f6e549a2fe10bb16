/** The session store: an in-memory token and a loading flag, mirrored into the storage
    key "token". */
module AuthContext {
  import opened Wrappers
  import opened JsStrings
  import opened BrowserStorage

  const OutsideProvider := "useAuth must be used within AuthProvider"

  /** `isAuthenticated = !!token`: a token that is present and not the empty string. */
  predicate Authenticated(token: Option<string>)
    ensures token.None? || token == Some("") ==> !Authenticated(token)
    ensures token.Some? && token.value != "" ==> Authenticated(token)
  {
    token.Some? && Truthy(token.value)
  }

  /** Everything a session transition can change: the in-memory token, the loading flag
      and the whole of storage. */
  datatype SessionState = SessionState(token: Option<string>, loading: bool, stored: map<string, string>)

  /** The state before the mount effect has run. */
  function Initial(stored: map<string, string>): (s: SessionState)
    ensures s.token.None? && s.loading && !Authenticated(s.token)
  {
    SessionState(None, true, stored)
  }

  /** The mount effect: a truthy stored token becomes the in-memory token (the token is not
      checked with the backend); loading ends; storage is only read. */
  function Restored(s: SessionState): (r: SessionState)
    ensures !r.loading && r.stored == s.stored
    ensures TokenKey in s.stored && Truthy(s.stored[TokenKey]) ==> r.token == Some(s.stored[TokenKey])
    ensures !(TokenKey in s.stored && Truthy(s.stored[TokenKey])) ==> r.token == s.token
  {
    if TokenKey in s.stored && Truthy(s.stored[TokenKey]) then
      s.(token := Some(s.stored[TokenKey]), loading := false)
    else
      s.(loading := false)
  }

  /** `login(t)`: `t` is stored under "token" and becomes the in-memory token. */
  function LoggedIn(s: SessionState, t: string): (r: SessionState)
    ensures r.token == Some(t) && TokenKey in r.stored && r.stored[TokenKey] == t && r.loading == s.loading
    ensures forall k :: k != TokenKey ==> (k in r.stored <==> k in s.stored)
    ensures forall k :: k != TokenKey && k in s.stored ==> r.stored[k] == s.stored[k]
  {
    s.(token := Some(t), stored := s.stored[TokenKey := t])
  }

  /** `logout()`: the stored key is removed and the in-memory token cleared. */
  function LoggedOut(s: SessionState): (r: SessionState)
    ensures r.token.None? && TokenKey !in r.stored && r.loading == s.loading
    ensures forall k :: k != TokenKey ==> (k in r.stored <==> k in s.stored)
    ensures forall k :: k != TokenKey && k in s.stored ==> r.stored[k] == s.stored[k]
  {
    s.(token := None, stored := s.stored - {TokenKey})
  }

  /** After mounting, the session is authenticated exactly when storage held a truthy
      token, and that token is the one in memory. */
  lemma MountAuthenticatesIffStoredTokenTruthy(stored: map<string, string>)
    ensures var s := Restored(Initial(stored));
      && !s.loading
      && (Authenticated(s.token) <==> TokenKey in stored && Truthy(stored[TokenKey]))
      && (Authenticated(s.token) ==> s.token == Some(stored[TokenKey]))
  {
  }

  /** Logging in authenticates, unless the token is the empty string. */
  lemma LoginAuthenticatesIffTokenNonEmpty(s: SessionState, t: string)
    ensures Authenticated(LoggedIn(s, t).token) <==> t != ""
  {
  }

  lemma LogoutIdempotent(s: SessionState)
    ensures LoggedOut(LoggedOut(s)) == LoggedOut(s)
  {
  }

  /** Logging in and then out leaves no token in storage and an anonymous session, and
      storage otherwise as it was before, whatever the earlier state. */
  lemma LoginThenLogout(s: SessionState, t: string)
    ensures var r := LoggedOut(LoggedIn(s, t));
      && TokenKey !in r.stored && !Authenticated(r.token)
      && r.stored == s.stored - {TokenKey}
  {
  }

  /** The provider component. Storage is shared with the API client. */
  class AuthProvider {
    var token: Option<string>
    var loading: bool
    const storage: LocalStorage

    function State(): SessionState
      reads this, storage
    {
      SessionState(token, loading, storage.items)
    }

    /** `isAuthenticated`: a token is held and it is not the empty string. */
    function IsAuthenticated(): (b: bool)
      reads this
      ensures b <==> token.Some? && token.value != ""
    {
      Authenticated(token)
    }

    /** `useState(null)` and `useState(true)`. */
    constructor (storage: LocalStorage)
      ensures this.storage == storage
      ensures State() == Initial(storage.items)
    {
      token := None;
      loading := true;
      this.storage := storage;
    }

    /** The mount effect. */
    method Restore()
      modifies this
      ensures State() == Restored(old(State()))
    {
      var saved := storage.GetItem(TokenKey);
      if saved.Some? && Truthy(saved.value) {
        token := saved;
      }
      loading := false;
    }

    method Login(newToken: string)
      modifies this, storage
      ensures State() == LoggedIn(old(State()), newToken)
    {
      storage.SetItem(TokenKey, newToken);
      token := Some(newToken);
    }

    method Logout()
      modifies this, storage
      ensures State() == LoggedOut(old(State()))
    {
      storage.RemoveItem(TokenKey);
      token := None;
    }
  }

  /** `useAuth()`: the provider's value, or the error thrown outside a provider. */
  function UseAuth<T>(context: Option<T>): (r: Result<T, string>)
    ensures r.Err? <==> context.None?
    ensures r.Err? ==> r.error == OutsideProvider
    ensures r.Ok? ==> r.value == context.value
  {
    match context
    case Some(value) => Ok(value)
    case None => Err(OutsideProvider)
  }
}
