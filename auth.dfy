/**
 * The bearer-token store: one token kept under the key "auth_token" in two
 * browser stores at once, the cookie jar and local storage.
 */
module Auth {
  import opened Wrappers

  const AuthTokenKey := "auth_token"

  /** The cookie jar holds a usable token: present and non-empty. */
  predicate CookieHoldsToken(cookies: map<string, string>) {
    AuthTokenKey in cookies && cookies[AuthTokenKey] != ""
  }

  /**
   * What getAuthToken returns: the cookie when it is non-empty, otherwise
   * whatever local storage holds under the key (which may itself be "").
   */
  function ReadToken(cookies: map<string, string>, local: map<string, string>): (r: Option<string>)
    ensures r.None? <==> !CookieHoldsToken(cookies) && AuthTokenKey !in local
    ensures CookieHoldsToken(cookies) ==> r == Some(cookies[AuthTokenKey])
    ensures r.Some? && !CookieHoldsToken(cookies) ==> r.value == local[AuthTokenKey]
  {
    if CookieHoldsToken(cookies) then Some(cookies[AuthTokenKey])
    else if AuthTokenKey in local then Some(local[AuthTokenKey])
    else None
  }

  /** isAuthenticated: the token read back is truthy. */
  predicate Authenticated(cookies: map<string, string>, local: map<string, string>) {
    Truthy(ReadToken(cookies, local))
  }

  /** Authenticated exactly when one of the two stores holds a non-empty token under the key. */
  lemma AuthenticatedIffStoredToken(cookies: map<string, string>, local: map<string, string>)
    ensures Authenticated(cookies, local) <==>
      CookieHoldsToken(cookies) || (AuthTokenKey in local && local[AuthTokenKey] != "")
  {
  }

  /** The two stores the browser keeps for this origin. */
  class TokenStore {
    var cookies: map<string, string>
    var local: map<string, string>

    constructor (cookies: map<string, string>, local: map<string, string>)
      ensures this.cookies == cookies && this.local == local
    {
      this.cookies := cookies;
      this.local := local;
    }

    /** setAuthToken: write the token to both stores; every other key stays as it was. */
    method SetAuthToken(token: string)
      modifies this
      ensures cookies == old(cookies)[AuthTokenKey := token]
      ensures local == old(local)[AuthTokenKey := token]
      ensures forall k :: k != AuthTokenKey ==> (k in cookies <==> k in old(cookies)) && (k in local <==> k in old(local))
      ensures ReadToken(cookies, local) == Some(token)
      ensures Authenticated(cookies, local) <==> token != ""
    {
      cookies := cookies[AuthTokenKey := token];
      local := local[AuthTokenKey := token];
    }

    /** getAuthToken. */
    method GetAuthToken() returns (token: Option<string>)
      ensures token == ReadToken(cookies, local)
    {
      if AuthTokenKey in cookies && cookies[AuthTokenKey] != "" {
        token := Some(cookies[AuthTokenKey]);
      } else if AuthTokenKey in local {
        token := Some(local[AuthTokenKey]);
      } else {
        token := None;
      }
    }

    /** removeAuthToken: delete the key from both stores; every other key stays as it was. */
    method RemoveAuthToken()
      modifies this
      ensures cookies == old(cookies) - {AuthTokenKey}
      ensures local == old(local) - {AuthTokenKey}
      ensures ReadToken(cookies, local) == None
      ensures !Authenticated(cookies, local)
    {
      cookies := cookies - {AuthTokenKey};
      local := local - {AuthTokenKey};
    }

    /** isAuthenticated: `!!getAuthToken()`. */
    method IsAuthenticated() returns (b: bool)
      ensures b <==> Authenticated(cookies, local)
      ensures b ==> ReadToken(cookies, local).Some? && ReadToken(cookies, local).value != ""
    {
      var token := GetAuthToken();
      b := token.Some? && token.value != "";
    }
  }

  /**
   * Writing the same token twice leaves both stores as one write does: the
   * stores of a browser that ran setAuthToken twice and of one that ran it once.
   */
  method SetTwiceIsIdempotent(cookies: map<string, string>, local: map<string, string>, token: string)
    returns (twice: (map<string, string>, map<string, string>), once: (map<string, string>, map<string, string>))
    ensures twice == once
    ensures once == (cookies[AuthTokenKey := token], local[AuthTokenKey := token])
  {
    var a := new TokenStore(cookies, local);
    a.SetAuthToken(token);
    a.SetAuthToken(token);
    var b := new TokenStore(cookies, local);
    b.SetAuthToken(token);
    assert cookies[AuthTokenKey := token][AuthTokenKey := token] == cookies[AuthTokenKey := token];
    assert local[AuthTokenKey := token][AuthTokenKey := token] == local[AuthTokenKey := token];
    twice, once := (a.cookies, a.local), (b.cookies, b.local);
  }

  /** A later setAuthToken overrides an earlier one in both stores, and getAuthToken returns the later token. */
  method LaterSetWins(cookies: map<string, string>, local: map<string, string>, first: string, second: string)
    returns (stores: (map<string, string>, map<string, string>), read: Option<string>)
    ensures stores == (cookies[AuthTokenKey := second], local[AuthTokenKey := second])
    ensures read == Some(second)
  {
    var s := new TokenStore(cookies, local);
    s.SetAuthToken(first);
    s.SetAuthToken(second);
    assert cookies[AuthTokenKey := first][AuthTokenKey := second] == cookies[AuthTokenKey := second];
    assert local[AuthTokenKey := first][AuthTokenKey := second] == local[AuthTokenKey := second];
    stores := (s.cookies, s.local);
    read := s.GetAuthToken();
  }
}
