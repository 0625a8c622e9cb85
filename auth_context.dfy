/** The authentication provider of src/contexts/AuthContext.tsx. Browser
    `localStorage` is the `storage` map; `JSON.parse` and `JSON.stringify` of
    a user, `encodeURIComponent`, the clock and `Math.random().toString(36)`
    are parameters. */
module AuthContext {
  import opened Wrappers
  import opened Js
  import opened ChatTypes

  const TokenKey := "jwt_token"
  const UserKey := "user"
  const ProductionLoginError := "Production authentication not yet implemented"

  /** The state before the stored session is loaded. */
  const InitialAuthState := AuthState(None, None, false, true)

  /** The state after logout, or after a load found nothing. */
  const SignedOut := AuthState(None, None, false, false)

  /** `localStorage.getItem(key)`: `None` stands for `null`. */
  function GetItem(storage: map<string, string>, key: string): (v: Option<string>)
    ensures v.Some? <==> key in storage
    ensures v.Some? ==> v.value == storage[key]
  {
    if key in storage then Some(storage[key]) else None
  }

  /** The token `login` makes in development mode. */
  function MockToken(now: nat, random: string): (t: string)
    ensures StartsWith(t, "mock_jwt_")
  {
    var t := "mock_jwt_" + Radix(now, 10) + "_" + SubstringFrom(random, 2);
    assert t[..9] == "mock_jwt_";
    t
  }

  /** The avatar URL of the mock user; `encodedName` is
      `encodeURIComponent(name)`. */
  function AvatarUrl(encodedName: string): string {
    "https://ui-avatars.com/api/?name=" + encodedName + "&background=A875D6&color=fff"
  }

  function MockUser(email: string, name: string, now: nat, encodedName: string): (u: User)
    ensures u.name == name && u.email == email
    ensures u.id == "user_" + Radix(now, 10)
    ensures u.avatar == Some(AvatarUrl(encodedName))
  {
    User("user_" + Radix(now, 10), name, email, Some(AvatarUrl(encodedName)))
  }

  /** What `JSON.parse` makes of the stored user string: it throws, it
      gives `null` (the string `"null"`), or it gives a user object. */
  datatype ParsedUser = Unparsable | NullUser | UserObject(user: User)

  /** The `user` field `JSON.parse` yields: `null` stays `null`. */
  function UserField(p: ParsedUser): (u: Option<User>)
    requires !p.Unparsable?
    ensures p.NullUser? <==> u.None?
    ensures p.UserObject? ==> u == Some(p.user)
  {
    if p.UserObject? then Some(p.user) else None
  }

  /** Storage holds a non-empty token and a non-empty user string on which
      `parseUser` (`JSON.parse`) does not throw. */
  predicate StoredSession(storage: map<string, string>, parseUser: string -> ParsedUser) {
    && Truthy(GetItem(storage, TokenKey))
    && Truthy(GetItem(storage, UserKey))
    && !parseUser(storage[UserKey]).Unparsable?
  }

  /** The state `loadAuthState` moves to from `prev`: the stored session when
      there is one, otherwise `prev` with loading finished. A stored `"null"`
      gives an authenticated state without a user. */
  function LoadedState(prev: AuthState, storage: map<string, string>, parseUser: string -> ParsedUser): (s: AuthState)
    ensures !s.isLoading
    ensures StoredSession(storage, parseUser) ==>
              s == AuthState(UserField(parseUser(storage[UserKey])), Some(storage[TokenKey]), true, false)
    ensures !StoredSession(storage, parseUser) ==> s == prev.(isLoading := false)
  {
    var token := GetItem(storage, TokenKey);
    var userStr := GetItem(storage, UserKey);
    if Truthy(token) && Truthy(userStr) then
      match parseUser(userStr.value)
      case UserObject(user) => AuthState(Some(user), Some(token.value), true, false)
      case NullUser => AuthState(None, Some(token.value), true, false)
      case Unparsable => prev.(isLoading := false)
    else
      prev.(isLoading := false)
  }

  /** A stored user string `"null"` next to a token restores an
      authenticated state whose user is `null`. */
  lemma NullUserIsAuthenticated(prev: AuthState, storage: map<string, string>, parseUser: string -> ParsedUser)
    requires Truthy(GetItem(storage, TokenKey)) && Truthy(GetItem(storage, UserKey))
    requires parseUser(storage[UserKey]) == NullUser
    ensures LoadedState(prev, storage, parseUser).isAuthenticated
    ensures LoadedState(prev, storage, parseUser).user.None?
  {
  }

  class AuthProvider {
    var state: AuthState
    var storage: map<string, string>

    /** An authenticated state has a token, the one stored under
        `jwt_token`. It need not have a user: a stored `"null"` restores an
        authenticated state whose user is `null`. */
    ghost predicate Valid()
      reads this
    {
      state.isAuthenticated ==>
        && state.jwtToken.Some?
        && TokenKey in storage && storage[TokenKey] == state.jwtToken.value
    }

    constructor (storage0: map<string, string>)
      ensures Valid()
      ensures state == InitialAuthState && storage == storage0
    {
      state := InitialAuthState;
      storage := storage0;
    }

    /** The mount effect: restore the session from storage. */
    method LoadAuthState(parseUser: string -> ParsedUser)
      requires Valid()
      modifies this`state
      ensures Valid()
      ensures state == LoadedState(old(state), storage, parseUser)
    {
      state := LoadedState(state, storage, parseUser);
    }

    /** `login(email, name)`. Outside development mode it fails with the
        source's error and changes nothing. `nowForId` and `nowForToken` are
        the two `Date.now()` reads; `stringifyUser` is `JSON.stringify`. */
    method Login(email: string, name: string, isDevMode: bool, nowForId: nat, nowForToken: nat,
                 random: string, encodedName: string, stringifyUser: User -> string)
      returns (outcome: Outcome)
      requires Valid()
      modifies this`state, this`storage
      ensures Valid()
      ensures !isDevMode ==>
                outcome == Fail(ProductionLoginError) && state == old(state) && storage == old(storage)
      ensures isDevMode ==>
                var user := MockUser(email, name, nowForId, encodedName);
                var token := MockToken(nowForToken, random);
                && outcome == Pass
                && storage == old(storage)[TokenKey := token][UserKey := stringifyUser(user)]
                && state == AuthState(Some(user), Some(token), true, false)
    {
      if !isDevMode {
        return Fail(ProductionLoginError);
      }
      var user := MockUser(email, name, nowForId, encodedName);
      var token := MockToken(nowForToken, random);
      storage := storage[TokenKey := token];
      storage := storage[UserKey := stringifyUser(user)];
      state := AuthState(Some(user), Some(token), true, false);
      outcome := Pass;
    }

    /** `logout`: both keys leave storage and the state is signed out. */
    method Logout()
      requires Valid()
      modifies this`state, this`storage
      ensures Valid()
      ensures storage == old(storage) - {TokenKey, UserKey}
      ensures state == SignedOut
    {
      storage := storage - {TokenKey, UserKey};
      state := SignedOut;
    }
  }

  /** A session survives a reload: a provider started on what `login` left in
      storage restores the logged-in user, provided `JSON.parse` reads back
      what `JSON.stringify` wrote (never an empty string). */
  method LoginSurvivesReload(email: string, name: string, nowForId: nat, nowForToken: nat,
                             random: string, encodedName: string,
                             stringifyUser: User -> string, parseUser: string -> ParsedUser)
    returns (before: AuthState, after: AuthState)
    requires forall u :: stringifyUser(u) != "" && parseUser(stringifyUser(u)) == UserObject(u)
    ensures before == after && before.isAuthenticated && before.user.Some?
  {
    var first := new AuthProvider(map[]);
    var outcome := first.Login(email, name, true, nowForId, nowForToken, random, encodedName, stringifyUser);
    before := first.state;
    assert GetItem(first.storage, TokenKey) == Some(MockToken(nowForToken, random));
    var second := new AuthProvider(first.storage);
    second.LoadAuthState(parseUser);
    after := second.state;
  }

  /** A provider started on a token and the user string `"null"` ends up
      authenticated with no user. */
  method ReloadWithNullUser(token: string, parseUser: string -> ParsedUser) returns (after: AuthState)
    requires token != "" && parseUser("null") == NullUser
    ensures after == AuthState(None, Some(token), true, false)
  {
    var p := new AuthProvider(map[TokenKey := token, UserKey := "null"]);
    p.LoadAuthState(parseUser);
    after := p.state;
  }

  /** After logout a reload stays signed out. */
  method LogoutSurvivesReload(storage0: map<string, string>, parseUser: string -> ParsedUser)
    returns (after: AuthState)
    ensures after == SignedOut
  {
    var first := new AuthProvider(storage0);
    first.Logout();
    var second := new AuthProvider(first.storage);
    second.LoadAuthState(parseUser);
    after := second.state;
  }
}
