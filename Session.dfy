/** The session store (`SessionManager`): a persistent string map holding the
    signed-in user's id, email, name and token, under four fixed keys. */
module Session {
  import opened Wrappers

  const UserIdKey := "user_id"
  const UserEmailKey := "user_email"
  const UserNameKey := "user_name"
  const AuthTokenKey := "auth_token"

  function Lookup(prefs: map<string, string>, key: string): (r: Option<string>)
    ensures r.Some? <==> key in prefs
    ensures r.Some? ==> r.value == prefs[key]
  {
    if key in prefs then Some(prefs[key]) else None
  }

  /** The store after `saveUserSession`: id, email and name written, the token
      written only when one is given. */
  function WithUserSession(prefs: map<string, string>, userId: string, email: string, name: string,
                           token: Option<string>): (p: map<string, string>)
    ensures p.Keys == prefs.Keys + {UserIdKey, UserEmailKey, UserNameKey}
                      + (if token.Some? then {AuthTokenKey} else {})
    ensures p[UserIdKey] == userId && p[UserEmailKey] == email && p[UserNameKey] == name
    ensures token.Some? ==> p[AuthTokenKey] == token.value
    ensures token.None? ==> Lookup(p, AuthTokenKey) == Lookup(prefs, AuthTokenKey)
    ensures forall k :: k in prefs && k !in {UserIdKey, UserEmailKey, UserNameKey, AuthTokenKey} ==> p[k] == prefs[k]
  {
    var p := prefs[UserIdKey := userId][UserEmailKey := email][UserNameKey := name];
    if token.Some? then p[AuthTokenKey := token.value] else p
  }

  /** `isLoggedIn`: both the user id and the token are stored. */
  predicate LoggedIn(prefs: map<string, string>) {
    UserIdKey in prefs && AuthTokenKey in prefs
  }

  /** Saving a session with a token always leaves the store signed in. */
  lemma SessionWithTokenIsLoggedIn(prefs: map<string, string>, userId: string, email: string,
                                   name: string, token: string)
    ensures LoggedIn(WithUserSession(prefs, userId, email, name, Some(token)))
  {
  }

  /** Without a token, the store is signed in afterwards exactly when a token was already there. */
  lemma SessionWithoutTokenKeepsLogin(prefs: map<string, string>, userId: string, email: string, name: string)
    ensures LoggedIn(WithUserSession(prefs, userId, email, name, None)) <==> AuthTokenKey in prefs
  {
    assert WithUserSession(prefs, userId, email, name, None).Keys
        == prefs.Keys + {UserIdKey, UserEmailKey, UserNameKey};
  }

  class SessionManager {
    /** The preferences file of the data store. */
    var prefs: map<string, string>

    /** Opens the store with whatever it held from earlier runs. */
    constructor (stored: map<string, string>)
      ensures prefs == stored
    {
      prefs := stored;
    }

    /** `saveAuthToken`: writes the token key and nothing else. */
    method SaveAuthToken(token: string)
      modifies this
      ensures prefs == old(prefs)[AuthTokenKey := token]
      ensures AuthToken() == Some(token)
      ensures UserId() == old(UserId()) && UserEmail() == old(UserEmail()) && UserName() == old(UserName())
    {
      prefs := prefs[AuthTokenKey := token];
    }

    /** `saveUserSession`: one atomic edit of id, email, name and, if given, the token. */
    method SaveUserSession(userId: string, email: string, name: string, token: Option<string>)
      modifies this
      ensures prefs == WithUserSession(old(prefs), userId, email, name, token)
      ensures UserId() == Some(userId) && UserEmail() == Some(email) && UserName() == Some(name)
      ensures AuthToken() == if token.Some? then token else old(AuthToken())
      ensures token.Some? ==> IsLoggedIn()
    {
      var p := prefs[UserIdKey := userId][UserEmailKey := email][UserNameKey := name];
      if token.Some? {
        p := p[AuthTokenKey := token.value];
      }
      prefs := p;
    }

    /** `clearSession`: removes every key, so every getter yields null afterwards. */
    method ClearSession()
      modifies this
      ensures prefs == map[]
      ensures AuthToken() == None && UserId() == None && UserEmail() == None && UserName() == None
      ensures !IsLoggedIn()
    {
      prefs := map[];
    }

    function AuthToken(): (r: Option<string>)
      reads this
      ensures r.Some? <==> AuthTokenKey in prefs
      ensures r.Some? ==> r.value == prefs[AuthTokenKey]
    {
      Lookup(prefs, AuthTokenKey)
    }

    function UserId(): (r: Option<string>)
      reads this
      ensures r.Some? <==> UserIdKey in prefs
      ensures r.Some? ==> r.value == prefs[UserIdKey]
    {
      Lookup(prefs, UserIdKey)
    }

    function UserEmail(): (r: Option<string>)
      reads this
      ensures r.Some? <==> UserEmailKey in prefs
      ensures r.Some? ==> r.value == prefs[UserEmailKey]
    {
      Lookup(prefs, UserEmailKey)
    }

    function UserName(): (r: Option<string>)
      reads this
      ensures r.Some? <==> UserNameKey in prefs
      ensures r.Some? ==> r.value == prefs[UserNameKey]
    {
      Lookup(prefs, UserNameKey)
    }

    /** `isLoggedIn`: true exactly when both the user id and the token are stored. */
    function IsLoggedIn(): (b: bool)
      reads this
      ensures b <==> UserId().Some? && AuthToken().Some?
    {
      LoggedIn(prefs)
    }
  }
}
