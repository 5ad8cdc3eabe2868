/** The `useAuth` hook: the in-memory `user`, `isAuthenticated` and `isLoading` state, the request
    wrappers for login, register and logout with their success handlers, the start-up initialiser
    and `updateUser`. */
module UseAuth {
  import opened Wrappers
  import opened Api
  import opened Json
  import opened Session
  import opened UseApi

  /** After `updateUser` the stored user reads back as the new user, and the token, the refresh
      token and hence the authentication judgement are what they were. */
  lemma UpdateUserReadsBack(items: map<string, string>, u: User)
    ensures CurrentUserIn(items[UserKey := Stringify(u)]) == Some(u)
    ensures GetItemIn(items[UserKey := Stringify(u)], AuthTokenKey) == GetItemIn(items, AuthTokenKey)
    ensures GetItemIn(items[UserKey := Stringify(u)], RefreshTokenKey) == GetItemIn(items, RefreshTokenKey)
    ensures IsAuthenticatedIn(items[UserKey := Stringify(u)]) == IsAuthenticatedIn(items)
  {
    ParseStringify(u);
    assert Stringify(u) != "" by {
      if Stringify(u) == [] { EmptyTextDoesNotParse(); }
    }
  }

  class AuthHook {
    var user: Option<User>
    var isAuthenticated: bool
    var isLoading: bool
    const service: AuthService
    const loginHook: ApiHook<Option<LoginResponse>>
    const registerHook: ApiHook<Option<User>>
    const logoutHook: ApiHook<()>

    /** The three request wrappers are separate objects. */
    ghost predicate Valid()
      reads this
    {
      && loginHook as object != registerHook as object
      && loginHook as object != logoutHook as object
      && registerHook as object != logoutHook as object
    }

    /** Mounting: no user, not authenticated, loading; the three wrappers idle. */
    constructor (service: AuthService)
      ensures Valid() && this.service == service
      ensures user.None? && !isAuthenticated && isLoading
      ensures loginHook.state == Idle() && registerHook.state == Idle() && logoutHook.state == Idle()
      ensures fresh(loginHook) && fresh(registerHook) && fresh(logoutHook)
    {
      this.service := service;
      loginHook := new ApiHook(false);
      registerHook := new ApiHook(false);
      logoutHook := new ApiHook(false);
      user := None;
      isAuthenticated := false;
      isLoading := true;
    }

    /** `login(credentials)` starts: the login wrapper goes pending. */
    method BeginLogin()
      requires Valid()
      modifies loginHook
      ensures loginHook.state == Begun(old(loginHook.state))
    {
      loginHook.Begin();
    }

    /** `login(credentials)` settles. The service writes the session on a successful reply; then the
        success handler adopts `response.user`. A missing response makes the handler read `.user` of
        `undefined`, which throws inside the wrapper's `try`, so the wrapper ends in its error state
        and the error is rethrown. A thrown reply leaves the in-memory state as it was. */
    method SettleLogin(reply: Reply<LoginResponse>) returns (r: Result<Option<LoginResponse>, ApiError>)
      requires Valid()
      modifies this, loginHook, service.storage
      ensures Valid() && isLoading == old(isLoading)
      ensures unchanged(registerHook) && unchanged(logoutHook)
      ensures service.storage.items == AfterLogin(old(service.storage.items), reply)
      ensures reply.Threw? ==>
        && r == Err(reply.error)
        && loginHook.state == Failed(old(loginHook.state), reply.error)
        && user == old(user) && isAuthenticated == old(isAuthenticated)
      ensures reply.Replied? && reply.data.Some? ==>
        && r == Ok(reply.data)
        && loginHook.state == Succeeded(reply.data)
        && user == Some(reply.data.value.user) && isAuthenticated
      ensures reply.Replied? && reply.data.None? ==>
        && r == Err(TypeErrorReading("user"))
        && loginHook.state == Failed(Succeeded(None), TypeErrorReading("user"))
        && user == old(user) && isAuthenticated == old(isAuthenticated)
    {
      var outcome := service.Login(reply);
      match outcome
      case Rejected(e) =>
        loginHook.Reject(e);
        r := Err(e);
      case Resolved(response) =>
        loginHook.Resolve(response);
        if response.Some? {
          user := Some(response.value.user);
          isAuthenticated := true;
          r := Ok(response);
        } else {
          loginHook.Reject(TypeErrorReading("user"));
          r := Err(TypeErrorReading("user"));
        }
    }

    /** `register(userData)` starts. */
    method BeginRegister()
      requires Valid()
      modifies registerHook
      ensures registerHook.state == Begun(old(registerHook.state))
    {
      registerHook.Begin();
    }

    /** `register(userData)` settles: no handler, so neither `user` nor `isAuthenticated` changes,
        and nothing is stored. */
    method SettleRegister(reply: Reply<User>) returns (r: Result<Option<User>, ApiError>)
      requires Valid()
      modifies registerHook
      ensures registerHook.state == Settled(old(registerHook.state), DataOf(reply))
      ensures reply.Threw? ==> r == Err(reply.error)
      ensures reply.Replied? ==> r == Ok(reply.data)
    {
      var outcome := service.Register(reply);
      r := registerHook.Settle(outcome);
    }

    /** `logout()` starts. */
    method BeginLogout()
      requires Valid()
      modifies logoutHook
      ensures logoutHook.state == Begun(old(logoutHook.state))
    {
      logoutHook.Begin();
    }

    /** `logout()` settles. The service never throws, so the wrapper always succeeds and the success
        handler forgets the user: storage and memory are both cleared, whatever the remote reply. */
    method SettleLogout(reply: Reply<()>)
      requires Valid()
      modifies this, logoutHook, service.storage
      ensures Valid() && isLoading == old(isLoading)
      ensures unchanged(loginHook) && unchanged(registerHook)
      ensures service.storage.items == WithoutSession(old(service.storage.items))
      ensures logoutHook.state == Succeeded(())
      ensures user.None? && !isAuthenticated
    {
      service.Logout(reply);
      logoutHook.Resolve(());
      user := None;
      isAuthenticated := false;
    }

    /** The start-up effect. With a stored token, the stored user is adopted if it parses, and
        otherwise the fetched profile; if that fetch throws, the stored session is cleared and the
        in-memory state stays as it was. Without a token nothing changes. Loading ends on every
        path. */
    method Initialize(profileReply: Reply<User>, logoutReply: Reply<()>)
      requires Valid()
      modifies this, service.storage
      ensures Valid() && !isLoading
      ensures var items := old(service.storage.items);
        && (!IsAuthenticatedIn(items) ==>
              user == old(user) && isAuthenticated == old(isAuthenticated) && service.storage.items == items)
        && (IsAuthenticatedIn(items) && CurrentUserIn(items).Some? ==>
              user == CurrentUserIn(items) && isAuthenticated && service.storage.items == items)
        && (IsAuthenticatedIn(items) && CurrentUserIn(items).None? && profileReply.Replied? ==>
              user == profileReply.data && isAuthenticated && service.storage.items == items)
        && (IsAuthenticatedIn(items) && CurrentUserIn(items).None? && profileReply.Threw? ==>
              user == old(user) && isAuthenticated == old(isAuthenticated) &&
              service.storage.items == WithoutSession(items))
    {
      var authenticated := service.IsAuthenticated();
      if authenticated {
        var currentUser := service.GetCurrentUser();
        if currentUser.Some? {
          user := currentUser;
          isAuthenticated := true;
        } else {
          var profile := service.GetProfile(profileReply);
          match profile
          case Resolved(p) =>
            user := p;
            isAuthenticated := true;
          case Rejected(_) =>
            service.Logout(logoutReply);
        }
      }
      isLoading := false;
    }

    /** `updateUser(u)`: the in-memory user and the stored user only. */
    method UpdateUser(updatedUser: User)
      requires Valid()
      modifies this, service.storage
      ensures Valid() && isAuthenticated == old(isAuthenticated) && isLoading == old(isLoading)
      ensures user == Some(updatedUser)
      ensures service.storage.items == old(service.storage.items)[UserKey := Stringify(updatedUser)]
    {
      user := Some(updatedUser);
      service.storage.SetItem(UserKey, Stringify(updatedUser));
    }
  }

  /** A successful login followed by a logout, against stored state of any kind. */
  method LoginLogoutScenario(items: map<string, string>)
  {
    var storage := new Storage(items);
    var service := new AuthService(storage);
    var auth := new AuthHook(service);
    var u := User("1", "A", "a@b.com", "", "");
    auth.BeginLogin();
    var r := auth.SettleLogin(Replied(true, Some(LoginResponse(u, "tok1", "ref1"))));
    assert r.Ok? && auth.user == Some(u) && auth.isAuthenticated;
    assert storage.items[AuthTokenKey] == "tok1" && storage.items[RefreshTokenKey] == "ref1";
    LoginReadsBack(items, LoginResponse(u, "tok1", "ref1"));
    assert CurrentUserIn(storage.items) == Some(u) && IsAuthenticatedIn(storage.items);
    auth.BeginLogout();
    auth.SettleLogout(Threw(ApiError("Network Error")));
    LogoutClearsSession(WithSession(items, LoginResponse(u, "tok1", "ref1")));
    assert !IsAuthenticatedIn(storage.items) && auth.user.None?;
  }
}
