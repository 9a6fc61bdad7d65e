/**
 * The mobile client's session management (mobile/lib/auth/auth.ts): which
 * tokens are stored on login and refresh, and how every failure of logout
 * and refresh clears the stored session. The identity provider's answers and
 * the clock are parameters; each operation is specified by a function from
 * the stored items (and those answers) to the new items and the result.
 */
module Auth {
  import opened Wrappers
  import opened PyJson
  import opened AuthUtils
  import opened TokenStorage

  /** `AuthError(message, name)`. */
  datatype AuthError = AuthError(message: string, name: string)

  /** The tokens of an `AuthenticationResult`; a missing result has none. */
  datatype AuthResult = AuthResult(accessToken: Option<string>, idToken: Option<string>, refreshToken: Option<string>)

  /** A JavaScript truthy optional string. */
  predicate Present(s: Option<string>) { s.Some? && s.value != "" }

  /** The items after an operation and what it returned or threw. */
  datatype Outcome<T> = Outcome(items: Items, result: Result<T, AuthError>)

  /** What the catch blocks rethrow for an error they do not single out. */
  function Rethrown(f: Failure): AuthError { AuthError(f.message, f.name) }

  /** `clearTokens()` followed by `removeItem(USER_ATTRIBUTES_KEY)`. */
  function Cleared(items: Items): Items
  {
    WithoutTokens(items) - {UserAttributesKey}
  }

  /** After clearing, no token and no attributes are left; every other key is kept. */
  lemma ClearedLeavesNoSession(items: Items)
    ensures forall t :: Token(Cleared(items), t) == None
    ensures UserAttributesKey !in Cleared(items)
    ensures forall k :: k !in TokenKeys && k != UserAttributesKey ==>
      (k in Cleared(items) <==> k in items) && (k in items ==> Cleared(items)[k] == items[k])
    ensures Cleared(Cleared(items)) == Cleared(items)
  {
    ClearRemovesOnlyTokens(items);
  }

  // ---------------------------------------------------------------------------
  // login

  const IncompleteAuthResult := Failure("IncompleteAuthResult", "Incomplete authentication result")

  /** The error `login` reports for a thrown error. */
  function LoginError(f: Failure): (e: AuthError)
    ensures f.name == "UserNotConfirmedException" ==> e == AuthError("User not confirmed", "UserNotConfirmedException")
    ensures f.name in {"UserNotFoundException", "NotAuthorizedException"} ==> e == AuthError("Invalid email or password", f.name)
    ensures f.name !in {"UserNotConfirmedException", "UserNotFoundException", "NotAuthorizedException"} ==> e == Rethrown(f)
  {
    if f.name == "UserNotConfirmedException" then AuthError("User not confirmed", "UserNotConfirmedException")
    else if f.name == "UserNotFoundException" || f.name == "NotAuthorizedException" then
      AuthError("Invalid email or password", f.name)
    else Rethrown(f)
  }

  /** The three tokens of a complete result, written in order. */
  function WithTokens(items: Items, access: string, id: string, refresh: string): Items
  {
    WithToken(WithToken(WithToken(items, Access, access), Id, id), Refresh, refresh)
  }

  /** `login`, given the provider's answer to the password sign-in. */
  function AfterLogin(items: Items, response: Result<AuthResult, Failure>,
                      decode: string -> Result<string, Failure>,
                      parse: string -> Result<Json, Failure>): Outcome<AuthResult>
  {
    match response
    case Err(f) => Outcome(items, Err(LoginError(f)))
    case Ok(res) =>
      if Present(res.accessToken) && Present(res.idToken) && Present(res.refreshToken) then
        var stored := WithTokens(items, res.accessToken.value, res.idToken.value, res.refreshToken.value);
        match ExtractAttributes(res.idToken.value, decode, parse)
        case Err(f) => Outcome(stored, Err(LoginError(f)))
        case Ok(attrs) => Outcome(stored[UserAttributesKey := Record(attrs)], Ok(res))
      else Outcome(items, Err(LoginError(IncompleteAuthResult)))
  }

  /**
   * A login succeeds exactly when the provider answers with all three tokens
   * and the id token's payload can be read; then all three tokens and the
   * attributes from the id token are stored.
   */
  lemma LoginStoresCompleteResult(items: Items, response: Result<AuthResult, Failure>,
                                  decode: string -> Result<string, Failure>,
                                  parse: string -> Result<Json, Failure>)
    ensures var o := AfterLogin(items, response, decode, parse);
      o.result.Ok? <==>
        (response.Ok? && Present(response.value.accessToken) && Present(response.value.idToken)
         && Present(response.value.refreshToken)
         && ExtractAttributes(response.value.idToken.value, decode, parse).Ok?)
    ensures var o := AfterLogin(items, response, decode, parse);
      o.result.Ok? ==>
        o.result.value == response.value &&
        Token(o.items, Access) == response.value.accessToken &&
        Token(o.items, Id) == response.value.idToken &&
        Token(o.items, Refresh) == response.value.refreshToken &&
        o.items[UserAttributesKey] == Record(ExtractAttributes(response.value.idToken.value, decode, parse).value)
  {
    if response.Ok? {
      var res := response.value;
      if Present(res.accessToken) && Present(res.idToken) && Present(res.refreshToken) {
        UserAttributesIsNoTokenKey();
        var s1 := WithToken(items, Access, res.accessToken.value);
        var s2 := WithToken(s1, Id, res.idToken.value);
        SetLeavesOthers(s1, Id, res.idToken.value);
        SetLeavesOthers(s2, Refresh, res.refreshToken.value);
      }
    }
  }

  /** Without all three tokens nothing is stored. */
  lemma LoginIncompleteStoresNothing(items: Items, res: AuthResult,
                                     decode: string -> Result<string, Failure>,
                                     parse: string -> Result<Json, Failure>)
    requires !(Present(res.accessToken) && Present(res.idToken) && Present(res.refreshToken))
    ensures AfterLogin(items, Ok(res), decode, parse)
      == Outcome(items, Err(AuthError("Incomplete authentication result", "IncompleteAuthResult")))
  {
  }

  /** A rejected sign-in stores nothing; the two credential errors read the same. */
  lemma LoginRejectedStoresNothing(items: Items, f: Failure,
                                   decode: string -> Result<string, Failure>,
                                   parse: string -> Result<Json, Failure>)
    ensures AfterLogin(items, Err(f), decode, parse).items == items
    ensures f.name == "UserNotFoundException" || f.name == "NotAuthorizedException" ==>
      AfterLogin(items, Err(f), decode, parse).result.error.message == "Invalid email or password"
  {
  }

  // ---------------------------------------------------------------------------
  // logout

  const NoAccessToken := AuthError("No access token found", "NoAccessToken")

  /** `logout`, given whether the global sign-out threw. */
  function AfterLogout(items: Items, signOut: Option<Failure>): Outcome<()>
  {
    if !Present(Token(items, Access)) then Outcome(Cleared(items), Err(NoAccessToken))
    else if signOut.Some? then Outcome(Cleared(items), Err(Rethrown(signOut.value)))
    else Outcome(Cleared(items), Ok(()))
  }

  /** Whatever the server does, logout leaves no tokens and no attributes; it throws unless both a token and the sign-out were there. */
  lemma LogoutAlwaysClears(items: Items, signOut: Option<Failure>)
    ensures forall t :: Token(AfterLogout(items, signOut).items, t) == None
    ensures UserAttributesKey !in AfterLogout(items, signOut).items
    ensures AfterLogout(items, signOut).result.Err? <==> (!Present(Token(items, Access)) || signOut.Some?)
  {
    ClearedLeavesNoSession(items);
  }

  // ---------------------------------------------------------------------------
  // isAuthenticated

  /**
   * `isAuthenticated` at `now` milliseconds: both tokens are there, the access
   * token parses, and its `exp` (seconds) is strictly later than `now / 1000`.
   */
  function Authenticated(items: Items, now: int, decode: string -> Result<string, Failure>,
                         parse: string -> Result<Json, Failure>): (b: bool)
    ensures b ==> Present(Token(items, Access)) && Present(Token(items, Refresh))
  {
    var access := Token(items, Access);
    var refresh := Token(items, Refresh);
    if !Present(access) || !Present(refresh) then false
    else
      match ParseJwt(access.value, decode, parse)
      case Err(_) => false
      case Ok(payload) =>
        match Property(payload, "exp")
        case Ok(Some(JNum(exp))) => exp as real > now as real / 1000.0
        case _ => false
  }

  /** The expiry test is strict: a token expiring at `now` no longer counts. */
  lemma ExpiryIsStrict(items: Items, exp: int, decode: string -> Result<string, Failure>,
                       parse: string -> Result<Json, Failure>, fields: map<string, Json>)
    requires Present(Token(items, Access)) && Present(Token(items, Refresh))
    requires ParseJwt(Token(items, Access).value, decode, parse) == Ok(JObj(fields))
    requires "exp" in fields && fields["exp"] == JNum(exp)
    ensures !Authenticated(items, exp * 1000, decode, parse)
    ensures Authenticated(items, exp * 1000 - 1, decode, parse)
  {
  }

  /** A token that cannot be parsed is not authenticated. */
  lemma UnparsableTokenIsNotAuthenticated(items: Items, now: int, decode: string -> Result<string, Failure>,
                                          parse: string -> Result<Json, Failure>)
    requires Present(Token(items, Access))
    requires ParseJwt(Token(items, Access).value, decode, parse).Err?
    ensures !Authenticated(items, now, decode, parse)
  {
  }

  // ---------------------------------------------------------------------------
  // refreshSession

  const NoRefreshToken := AuthError("No refresh token found", "NoRefreshToken")
  const IncompleteRefreshResult := AuthError("Incomplete refresh result", "IncompleteRefreshResult")

  /**
   * `refreshSession`, given the provider's answer to the refresh-token sign-in.
   * Errors thrown inside the try block are caught, the session is cleared once
   * more and the error is rethrown with the same message and name.
   */
  function AfterRefresh(items: Items, response: Result<AuthResult, Failure>): Outcome<AuthResult>
  {
    if !Present(Token(items, Refresh)) then Outcome(Cleared(Cleared(items)), Err(NoRefreshToken))
    else
      match response
      case Err(f) => Outcome(Cleared(items), Err(Rethrown(f)))
      case Ok(res) =>
        if Present(res.accessToken) && Present(res.idToken) then
          var renewed := WithToken(WithToken(items, Access, res.accessToken.value), Id, res.idToken.value);
          Outcome(if Present(res.refreshToken) then WithToken(renewed, Refresh, res.refreshToken.value) else renewed,
                  Ok(res))
        else Outcome(Cleared(Cleared(items)), Err(IncompleteRefreshResult))
  }

  /** Every failed refresh, whatever the cause, ends with no tokens and no attributes. */
  lemma RefreshFailureClears(items: Items, response: Result<AuthResult, Failure>)
    ensures AfterRefresh(items, response).result.Err? ==>
      AfterRefresh(items, response).items == Cleared(items) &&
      (forall t :: Token(AfterRefresh(items, response).items, t) == None) &&
      UserAttributesKey !in AfterRefresh(items, response).items
  {
    ClearedLeavesNoSession(items);
  }

  /** Without a refresh token the session is cleared and nothing is asked of the provider. */
  lemma RefreshWithoutToken(items: Items, response: Result<AuthResult, Failure>, other: Result<AuthResult, Failure>)
    requires !Present(Token(items, Refresh))
    ensures AfterRefresh(items, response) == AfterRefresh(items, other)
    ensures AfterRefresh(items, response).result == Err(NoRefreshToken)
  {
  }

  /**
   * A successful refresh overwrites the access and id tokens; the refresh
   * token is replaced only when a new one came back. Nothing else changes.
   */
  lemma RefreshSuccess(items: Items, response: Result<AuthResult, Failure>)
    requires AfterRefresh(items, response).result.Ok?
    ensures response.Ok? && Present(response.value.accessToken) && Present(response.value.idToken)
    ensures var after := AfterRefresh(items, response).items;
      Token(after, Access) == response.value.accessToken &&
      Token(after, Id) == response.value.idToken &&
      Token(after, Refresh) == (if Present(response.value.refreshToken) then response.value.refreshToken
                                else Token(items, Refresh))
    ensures var after := AfterRefresh(items, response).items;
      forall k :: k !in TokenKeys ==> (k in after <==> k in items) && (k in items ==> after[k] == items[k])
  {
    var res := response.value;
    var s1 := WithToken(items, Access, res.accessToken.value);
    var s2 := WithToken(s1, Id, res.idToken.value);
    SetLeavesOthers(items, Access, res.accessToken.value);
    SetLeavesOthers(s1, Id, res.idToken.value);
    SetLeavesOthers(s2, Refresh, if Present(res.refreshToken) then res.refreshToken.value else "");
    assert TokenKey(Access) in TokenKeys && TokenKey(Id) in TokenKeys && TokenKey(Refresh) in TokenKeys;
  }

  /** A refresh never writes the attributes: it keeps them or removes them. */
  lemma RefreshNeverStoresAttributes(items: Items, response: Result<AuthResult, Failure>)
    ensures UserAttributesKey in AfterRefresh(items, response).items ==>
      UserAttributesKey in items &&
      AfterRefresh(items, response).items[UserAttributesKey] == items[UserAttributesKey]
  {
    UserAttributesIsNoTokenKey();
  }

  // ---------------------------------------------------------------------------
  // checkAuthStatus

  /** `checkAuthStatus`: the new items and the returned flag. */
  function AfterCheck(items: Items, now: int, decode: string -> Result<string, Failure>,
                      parse: string -> Result<Json, Failure>, response: Result<AuthResult, Failure>): (Items, bool)
  {
    if Authenticated(items, now, decode, parse) then (items, true)
    else
      var refreshed := AfterRefresh(items, response);
      if refreshed.result.Ok? then (refreshed.items, true) else (Cleared(refreshed.items), false)
  }

  /**
   * An authenticated session is reported without a refresh; otherwise the flag
   * is whether the refresh succeeded, and a failed one leaves no session.
   */
  lemma CheckAuthStatusOutcome(items: Items, now: int, decode: string -> Result<string, Failure>,
                               parse: string -> Result<Json, Failure>, response: Result<AuthResult, Failure>)
    ensures Authenticated(items, now, decode, parse) ==> AfterCheck(items, now, decode, parse, response) == (items, true)
    ensures !Authenticated(items, now, decode, parse) ==>
      AfterCheck(items, now, decode, parse, response).1 == AfterRefresh(items, response).result.Ok?
    ensures !AfterCheck(items, now, decode, parse, response).1 ==>
      (forall t :: Token(AfterCheck(items, now, decode, parse, response).0, t) == None) &&
      UserAttributesKey !in AfterCheck(items, now, decode, parse, response).0
  {
    ClearedLeavesNoSession(AfterRefresh(items, response).items);
  }

  // ---------------------------------------------------------------------------
  // changePassword and getUser

  /** The error `changePassword` reports for a thrown error. */
  function ChangePasswordError(f: Failure): (e: AuthError)
    ensures f.name == "InvalidPasswordException" ==> e == AuthError("Invalid password format", f.name)
    ensures f.name == "NotAuthorizedException" ==> e == AuthError("Incorrect old password", f.name)
    ensures f.name !in {"InvalidPasswordException", "NotAuthorizedException"} ==> e == Rethrown(f)
  {
    if f.name == "InvalidPasswordException" then AuthError("Invalid password format", f.name)
    else if f.name == "NotAuthorizedException" then AuthError("Incorrect old password", f.name)
    else Rethrown(f)
  }

  /** `changePassword`, given whether the provider threw; the stored items are not touched. */
  function ChangePasswordResult(items: Items, response: Option<Failure>): (r: Result<(), AuthError>)
    ensures !Present(Token(items, Access)) ==> r == Err(NoAccessToken)
    ensures Present(Token(items, Access)) ==> (r.Ok? <==> response.None?)
  {
    if !Present(Token(items, Access)) then Err(ChangePasswordError(Failure(NoAccessToken.name, NoAccessToken.message)))
    else if response.Some? then Err(ChangePasswordError(response.value))
    else Ok(())
  }

  /** `getUser`: the stored attribute record, if any. */
  function StoredUser(items: Items): (r: Option<Attributes>)
    ensures r.Some? <==> UserAttributesKey in items && items[UserAttributesKey].Record?
    ensures r.Some? ==> items[UserAttributesKey] == Record(r.value)
  {
    if UserAttributesKey in items && items[UserAttributesKey].Record? then Some(items[UserAttributesKey].attrs)
    else None
  }

  /** The attributes a login stores are the ones `getUser` then returns. */
  lemma LoginThenGetUser(items: Items, response: Result<AuthResult, Failure>,
                         decode: string -> Result<string, Failure>,
                         parse: string -> Result<Json, Failure>)
    requires AfterLogin(items, response, decode, parse).result.Ok?
    ensures StoredUser(AfterLogin(items, response, decode, parse).items)
      == Some(ExtractAttributes(response.value.idToken.value, decode, parse).value)
  {
    LoginStoresCompleteResult(items, response, decode, parse);
  }

  /** Every operation keeps tokens as text and the attributes as a record. */
  lemma OperationsKeepValid(items: Items, response: Result<AuthResult, Failure>, signOut: Option<Failure>,
                            now: int, decode: string -> Result<string, Failure>,
                            parse: string -> Result<Json, Failure>)
    requires Valid(items)
    ensures Valid(AfterLogin(items, response, decode, parse).items)
    ensures Valid(AfterLogout(items, signOut).items)
    ensures Valid(AfterRefresh(items, response).items)
    ensures Valid(AfterCheck(items, now, decode, parse, response).0)
  {
    LoginKeepsValid(items, response, decode, parse);
    ClearedKeepsValid(items);
    RefreshKeepsValid(items, response);
  }

  lemma ClearedKeepsValid(items: Items)
    requires Valid(items)
    ensures Valid(Cleared(items)) && Valid(Cleared(Cleared(items)))
  {
    TokenOperationsKeepValid(items, Access, "");
    UserAttributesIsNoTokenKey();
  }

  lemma LoginKeepsValid(items: Items, response: Result<AuthResult, Failure>,
                        decode: string -> Result<string, Failure>,
                        parse: string -> Result<Json, Failure>)
    requires Valid(items)
    ensures Valid(AfterLogin(items, response, decode, parse).items)
  {
    if response.Ok? {
      var res := response.value;
      if Present(res.accessToken) && Present(res.idToken) && Present(res.refreshToken) {
        TokenOperationsKeepValid(items, Access, res.accessToken.value);
        var s1 := WithToken(items, Access, res.accessToken.value);
        TokenOperationsKeepValid(s1, Id, res.idToken.value);
        var s2 := WithToken(s1, Id, res.idToken.value);
        TokenOperationsKeepValid(s2, Refresh, res.refreshToken.value);
        UserAttributesIsNoTokenKey();
      }
    }
  }

  lemma RefreshKeepsValid(items: Items, response: Result<AuthResult, Failure>)
    requires Valid(items)
    ensures Valid(AfterRefresh(items, response).items)
  {
    ClearedKeepsValid(items);
    if Present(Token(items, Refresh)) && response.Ok? {
      var res := response.value;
      if Present(res.accessToken) && Present(res.idToken) {
        TokenOperationsKeepValid(items, Access, res.accessToken.value);
        var s1 := WithToken(items, Access, res.accessToken.value);
        TokenOperationsKeepValid(s1, Id, res.idToken.value);
        if Present(res.refreshToken) {
          TokenOperationsKeepValid(WithToken(s1, Id, res.idToken.value), Refresh, res.refreshToken.value);
        }
      }
    }
  }

  // ---------------------------------------------------------------------------
  // The service over the device storage

  class AuthService {
    const store: AsyncStorage

    constructor (store: AsyncStorage)
      ensures this.store == store
    {
      this.store := store;
    }

    /** `login(email, password)`; the credentials only reach the provider, whose answer is `response`. */
    method Login(response: Result<AuthResult, Failure>, decode: string -> Result<string, Failure>,
                 parse: string -> Result<Json, Failure>) returns (r: Result<AuthResult, AuthError>)
      modifies store
      ensures store.items == AfterLogin(old(store.items), response, decode, parse).items
      ensures r == AfterLogin(old(store.items), response, decode, parse).result
    {
      if response.Err? {
        return Err(LoginError(response.error));
      }
      var res := response.value;
      if !(Present(res.accessToken) && Present(res.idToken) && Present(res.refreshToken)) {
        return Err(LoginError(IncompleteAuthResult));
      }
      SetToken(store, Access, res.accessToken.value);
      SetToken(store, Id, res.idToken.value);
      SetToken(store, Refresh, res.refreshToken.value);
      var attrs := ExtractAttributes(res.idToken.value, decode, parse);
      if attrs.Err? {
        return Err(LoginError(attrs.error));
      }
      store.SetItem(UserAttributesKey, Record(attrs.value));
      r := Ok(res);
    }

    /** `logout()`; `signOut` is what the global sign-out threw, if anything. */
    method Logout(signOut: Option<Failure>) returns (r: Result<(), AuthError>)
      modifies store
      ensures store.items == AfterLogout(old(store.items), signOut).items
      ensures r == AfterLogout(old(store.items), signOut).result
    {
      var accessToken := GetToken(store, Access);
      var thrown: Option<Failure> := None;
      if !Present(accessToken) {
        thrown := Some(Failure(NoAccessToken.name, NoAccessToken.message));
      } else if signOut.Some? {
        thrown := signOut;
      } else {
        ClearTokens(store);
        store.RemoveItem(UserAttributesKey);
      }
      if thrown.Some? {
        ClearTokens(store);
        store.RemoveItem(UserAttributesKey);
        return Err(Rethrown(thrown.value));
      }
      r := Ok(());
    }

    /** `isAuthenticated()` at `now` milliseconds. */
    method IsAuthenticated(now: int, decode: string -> Result<string, Failure>,
                           parse: string -> Result<Json, Failure>) returns (b: bool)
      ensures b == Authenticated(store.items, now, decode, parse)
    {
      var accessToken := GetToken(store, Access);
      var refreshToken := GetToken(store, Refresh);
      if !Present(accessToken) || !Present(refreshToken) {
        return false;
      }
      var decoded := ParseJwt(accessToken.value, decode, parse);
      if decoded.Err? {
        return false;
      }
      var exp := Property(decoded.value, "exp");
      b := exp.Ok? && exp.value.Some? && exp.value.value.JNum? && exp.value.value.n as real > now as real / 1000.0;
    }

    /** `refreshSession()`; `response` is the provider's answer to the refresh-token sign-in. */
    method RefreshSession(response: Result<AuthResult, Failure>) returns (r: Result<AuthResult, AuthError>)
      modifies store
      ensures store.items == AfterRefresh(old(store.items), response).items
      ensures r == AfterRefresh(old(store.items), response).result
    {
      var thrown: Option<Failure> := None;
      var refreshToken := GetToken(store, Refresh);
      if !Present(refreshToken) {
        ClearTokens(store);
        store.RemoveItem(UserAttributesKey);
        thrown := Some(Failure(NoRefreshToken.name, NoRefreshToken.message));
      } else if response.Err? {
        thrown := Some(response.error);
      } else {
        var res := response.value;
        if Present(res.accessToken) && Present(res.idToken) {
          SetToken(store, Access, res.accessToken.value);
          SetToken(store, Id, res.idToken.value);
          if Present(res.refreshToken) {
            SetToken(store, Refresh, res.refreshToken.value);
          }
          return Ok(res);
        }
        ClearTokens(store);
        store.RemoveItem(UserAttributesKey);
        thrown := Some(Failure(IncompleteRefreshResult.name, IncompleteRefreshResult.message));
      }
      ClearTokens(store);
      store.RemoveItem(UserAttributesKey);
      r := Err(Rethrown(thrown.value));
    }

    /** `checkAuthStatus()`. */
    method CheckAuthStatus(now: int, decode: string -> Result<string, Failure>,
                           parse: string -> Result<Json, Failure>,
                           response: Result<AuthResult, Failure>) returns (b: bool)
      modifies store
      ensures (store.items, b) == AfterCheck(old(store.items), now, decode, parse, response)
    {
      var authenticated := IsAuthenticated(now, decode, parse);
      if authenticated {
        return true;
      }
      var refreshed := RefreshSession(response);
      if refreshed.Ok? {
        return true;
      }
      ClearTokens(store);
      store.RemoveItem(UserAttributesKey);
      b := false;
    }

    /** `changePassword(old, new)`; `response` is what the provider threw, if anything. */
    method ChangePassword(response: Option<Failure>) returns (r: Result<(), AuthError>)
      ensures r == ChangePasswordResult(store.items, response)
    {
      var accessToken := GetToken(store, Access);
      if !Present(accessToken) {
        return Err(ChangePasswordError(Failure(NoAccessToken.name, NoAccessToken.message)));
      }
      if response.Some? {
        return Err(ChangePasswordError(response.value));
      }
      r := Ok(());
    }

    /** `getUser()`. */
    method GetUser() returns (r: Option<Attributes>)
      ensures r == StoredUser(store.items)
    {
      if UserAttributesKey in store.items && store.items[UserAttributesKey].Record? {
        r := Some(store.items[UserAttributesKey].attrs);
      } else {
        r := None;
      }
    }
  }
}
