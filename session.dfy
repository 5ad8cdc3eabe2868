/** The session store: the browser's key-value storage and the `AuthService` that keeps the two
    tokens and the serialised user in it. */
module Session {
  import opened Wrappers
  import opened Api
  import opened Json

  const AuthTokenKey: string := "authToken"
  const RefreshTokenKey: string := "refreshToken"
  const UserKey: string := "user"

  const NoRefreshTokenMessage: string := "No refresh token available"
  const RefreshFailedMessage: string := "Failed to refresh token"

  /** The payload of a successful login reply. */
  datatype LoginResponse = LoginResponse(user: User, token: string, refreshToken: string)

  /** The payload of a successful refresh reply. */
  datatype TokenResponse = TokenResponse(token: string)

  // ---------------------------------------------------------------------------------------------
  // What the storage holds, as functions of its contents.

  /** `localStorage.getItem(key)`: `null` for a missing key. */
  function GetItemIn(items: map<string, string>, key: string): (r: Option<string>)
    ensures r.Some? <==> key in items
    ensures r.Some? ==> r.value == items[key]
  {
    if key in items then Some(items[key]) else None
  }

  /** The JavaScript truthiness of `getItem`'s result: present and not the empty string. */
  predicate Truthy(item: Option<string>) {
    item.Some? && item.value != ""
  }

  /** `isAuthenticated()`: judged by the presence of a non-empty token alone. */
  predicate IsAuthenticatedIn(items: map<string, string>) {
    Truthy(GetItemIn(items, AuthTokenKey))
  }

  /** `getCurrentUser()`: the parsed user, or `null` when the key is absent, empty or does not parse. */
  function CurrentUserIn(items: map<string, string>): (u: Option<User>)
    ensures !Truthy(GetItemIn(items, UserKey)) ==> u.None?
    ensures Truthy(GetItemIn(items, UserKey)) ==> u == Parse(items[UserKey])
  {
    var stored := GetItemIn(items, UserKey);
    if Truthy(stored) then Parse(stored.value) else None
  }

  /** Storage after a successful login: the three keys written together. */
  function WithSession(items: map<string, string>, data: LoginResponse): map<string, string> {
    items[AuthTokenKey := data.token][RefreshTokenKey := data.refreshToken][UserKey := Stringify(data.user)]
  }

  /** Storage after logout: the three keys removed, nothing else touched. */
  function WithoutSession(items: map<string, string>): map<string, string> {
    items - {AuthTokenKey, RefreshTokenKey, UserKey}
  }

  /** Storage after the login reply has been handled. */
  function AfterLogin(items: map<string, string>, reply: Reply<LoginResponse>): map<string, string> {
    if reply.Replied? && reply.success && reply.data.Some? then WithSession(items, reply.data.value) else items
  }

  /** Storage after the refresh reply has been handled: only the access token can change. */
  function AfterRefresh(items: map<string, string>, reply: Reply<TokenResponse>): map<string, string> {
    if Truthy(GetItemIn(items, RefreshTokenKey)) && reply.Replied? && reply.success && reply.data.Some?
    then items[AuthTokenKey := reply.data.value.token]
    else items
  }

  /** What `refreshToken()` returns or throws. */
  function RefreshResult(items: map<string, string>, reply: Reply<TokenResponse>): Result<string, ApiError> {
    if !Truthy(GetItemIn(items, RefreshTokenKey)) then Err(ApiError(NoRefreshTokenMessage))
    else match reply
      case Threw(e) => Err(e)
      case Replied(success, data) =>
        if success && data.Some? then Ok(data.value.token) else Err(ApiError(RefreshFailedMessage))
  }

  // ---------------------------------------------------------------------------------------------
  // Properties of the session operations.

  /** After a successful login the session reads back: the token and the user that were in the
      reply, and the client is authenticated exactly when the token is non-empty. Keys other than
      the three are untouched. */
  lemma LoginReadsBack(items: map<string, string>, data: LoginResponse)
    ensures GetItemIn(WithSession(items, data), AuthTokenKey) == Some(data.token)
    ensures GetItemIn(WithSession(items, data), RefreshTokenKey) == Some(data.refreshToken)
    ensures CurrentUserIn(WithSession(items, data)) == Some(data.user)
    ensures IsAuthenticatedIn(WithSession(items, data)) <==> data.token != ""
    ensures forall k :: k !in {AuthTokenKey, RefreshTokenKey, UserKey} ==>
              GetItemIn(WithSession(items, data), k) == GetItemIn(items, k)
  {
    ParseStringify(data.user);
    var text := Stringify(data.user);
    assert text != "" by {
      if text == [] { EmptyTextDoesNotParse(); }
    }
  }

  /** After logout nothing of the session is left: no token, no refresh token, no user, not
      authenticated; keys other than the three are untouched. */
  lemma LogoutClearsSession(items: map<string, string>)
    ensures GetItemIn(WithoutSession(items), AuthTokenKey) == None
    ensures GetItemIn(WithoutSession(items), RefreshTokenKey) == None
    ensures CurrentUserIn(WithoutSession(items)) == None
    ensures !IsAuthenticatedIn(WithoutSession(items))
    ensures forall k :: k !in {AuthTokenKey, RefreshTokenKey, UserKey} ==>
              GetItemIn(WithoutSession(items), k) == GetItemIn(items, k)
  {
  }

  /** A refresh changes at most the access token, and changes it exactly when it succeeds, to the
      token it returns; without a stored refresh token it fails with "No refresh token available". */
  lemma RefreshTouchesOnlyToken(items: map<string, string>, reply: Reply<TokenResponse>)
    ensures forall k :: k != AuthTokenKey ==> GetItemIn(AfterRefresh(items, reply), k) == GetItemIn(items, k)
    ensures RefreshResult(items, reply).Ok? ==>
              GetItemIn(AfterRefresh(items, reply), AuthTokenKey) == Some(RefreshResult(items, reply).value)
    ensures RefreshResult(items, reply).Err? ==> AfterRefresh(items, reply) == items
    ensures !Truthy(GetItemIn(items, RefreshTokenKey)) ==>
              RefreshResult(items, reply) == Err(ApiError(NoRefreshTokenMessage))
  {
  }

  /** An unsuccessful login reply, or one without data, writes nothing. */
  lemma FailedLoginWritesNothing(items: map<string, string>, reply: Reply<LoginResponse>)
    requires reply.Threw? || !reply.success || reply.data.None?
    ensures AfterLogin(items, reply) == items
  {
  }

  // ---------------------------------------------------------------------------------------------
  // The storage object and the service.

  /** `window.localStorage` */
  class Storage {
    var items: map<string, string>

    constructor (items: map<string, string>)
      ensures this.items == items
    {
      this.items := items;
    }

    method GetItem(key: string) returns (r: Option<string>)
      ensures r == GetItemIn(items, key)
    {
      r := if key in items then Some(items[key]) else None;
    }

    method SetItem(key: string, value: string)
      modifies this
      ensures items == old(items)[key := value]
    {
      items := items[key := value];
    }

    method RemoveItem(key: string)
      modifies this
      ensures items == old(items) - {key}
    {
      items := items - {key};
    }
  }

  /** `AuthService`: every method gets the HTTP client's reply as a parameter. */
  class AuthService {
    const storage: Storage

    constructor (storage: Storage)
      ensures this.storage == storage
    {
      this.storage := storage;
    }

    /** On a successful reply with data the three keys are written; the reply's data is returned
        (`undefined` when missing) and a thrown error propagates with storage unchanged. */
    method Login(reply: Reply<LoginResponse>) returns (r: Outcome<Option<LoginResponse>>)
      modifies storage
      ensures storage.items == AfterLogin(old(storage.items), reply)
      ensures r == DataOf(reply)
    {
      match reply
      case Threw(e) =>
        r := Rejected(e);
      case Replied(success, data) =>
        if success && data.Some? {
          storage.SetItem(AuthTokenKey, data.value.token);
          storage.SetItem(RefreshTokenKey, data.value.refreshToken);
          storage.SetItem(UserKey, Stringify(data.value.user));
        }
        r := Resolved(data);
    }

    /** Registration returns the reply's data and writes nothing. */
    method Register(reply: Reply<User>) returns (r: Outcome<Option<User>>)
      ensures r == DataOf(reply)
    {
      match reply
      case Threw(e) => r := Rejected(e);
      case Replied(_, data) => r := Resolved(data);
    }

    /** The remote call's failure is swallowed; the three keys are removed in every case. */
    method Logout(reply: Reply<()>)
      modifies storage
      ensures storage.items == WithoutSession(old(storage.items))
    {
      storage.RemoveItem(AuthTokenKey);
      storage.RemoveItem(RefreshTokenKey);
      storage.RemoveItem(UserKey);
    }

    /** The profile request: its data, or the error it throws. */
    method GetProfile(reply: Reply<User>) returns (r: Outcome<Option<User>>)
      ensures r == DataOf(reply)
    {
      match reply
      case Threw(e) => r := Rejected(e);
      case Replied(_, data) => r := Resolved(data);
    }

    /** Fails before any request without a non-empty refresh token; otherwise sets only the access
        token on a successful reply, and fails on any other reply with storage unchanged. */
    method RefreshToken(reply: Reply<TokenResponse>) returns (r: Result<string, ApiError>)
      modifies storage
      ensures storage.items == AfterRefresh(old(storage.items), reply)
      ensures r == RefreshResult(old(storage.items), reply)
    {
      var refreshToken := storage.GetItem(RefreshTokenKey);
      if !Truthy(refreshToken) {
        return Err(ApiError(NoRefreshTokenMessage));
      }
      match reply
      case Threw(e) =>
        r := Err(e);
      case Replied(success, data) =>
        if success && data.Some? {
          storage.SetItem(AuthTokenKey, data.value.token);
          r := Ok(data.value.token);
        } else {
          r := Err(ApiError(RefreshFailedMessage));
        }
    }

    /** True exactly when a non-empty access token is stored; reads only. */
    method IsAuthenticated() returns (b: bool)
      ensures b <==> AuthTokenKey in storage.items && storage.items[AuthTokenKey] != ""
    {
      var token := storage.GetItem(AuthTokenKey);
      b := Truthy(token);
    }

    /** Never throws: the parsed stored user, or `null` when it is missing, empty or unparsable. */
    method GetCurrentUser() returns (u: Option<User>)
      ensures UserKey !in storage.items || storage.items[UserKey] == "" ==> u.None?
      ensures UserKey in storage.items && storage.items[UserKey] != "" ==> u == Parse(storage.items[UserKey])
    {
      var userStr := storage.GetItem(UserKey);
      if Truthy(userStr) {
        u := Parse(userStr.value);
      } else {
        u := None;
      }
    }

    /** Exactly the stored access token (possibly empty), or `null`. */
    method GetToken() returns (t: Option<string>)
      ensures t.Some? <==> AuthTokenKey in storage.items
      ensures t.Some? ==> t.value == storage.items[AuthTokenKey]
    {
      t := storage.GetItem(AuthTokenKey);
    }
  }
}
