/**
 * The OAuth callback page: it reads the `token` and `error` query parameters,
 * stores the token, and sends the browser on.
 */
module AuthCallback {
  import opened Wrappers
  import opened Browser
  import Auth

  /** The message the page shows (None for no message) and what it does. */
  datatype Decision = Decision(error: Option<string>, effects: seq<Effect>)

  /**
   * The effect run for the two query parameters (None when absent). A truthy
   * error wins over any token; an empty token counts as none.
   */
  function Decide(token: Option<string>, errorParam: Option<string>): (d: Decision)
    ensures Truthy(errorParam) ==> d == Decision(errorParam, [NavigateAfterDelay("/login")])
    ensures !Truthy(errorParam) && Truthy(token) ==>
      d == Decision(None, [StoreToken(token.value), Navigate("/dashboard")])
    ensures !Truthy(errorParam) && !Truthy(token) ==>
      d == Decision(Some("No token received"), [NavigateAfterDelay("/login")])
  {
    if Truthy(errorParam) then Decision(errorParam, [NavigateAfterDelay("/login")])
    else if Truthy(token) then Decision(None, [StoreToken(token.value), Navigate("/dashboard")])
    else Decision(Some("No token received"), [NavigateAfterDelay("/login")])
  }

  /** Whether a decision stores a token. */
  predicate Stores(effects: seq<Effect>) {
    exists i :: 0 <= i < |effects| && effects[i].StoreToken?
  }

  /**
   * Every run picks exactly one destination: the dashboard when a token is
   * stored, the login page (after a message) otherwise.
   */
  lemma ExactlyOneNavigation(token: Option<string>, errorParam: Option<string>)
    ensures |Navigations(Decide(token, errorParam).effects)| == 1
    ensures Navigations(Decide(token, errorParam).effects)[0] == "/dashboard" <==> Stores(Decide(token, errorParam).effects)
    ensures Navigations(Decide(token, errorParam).effects)[0] == "/login" <==> Decide(token, errorParam).error.Some?
  {
    var d := Decide(token, errorParam);
    if Truthy(errorParam) || !Truthy(token) {
      assert Navigations(d.effects[1..]) == [];
      assert !d.effects[0].StoreToken?;
    } else {
      assert Navigations(d.effects[1..]) == ["/dashboard"];
      assert d.effects[0].StoreToken?;
    }
  }

  /** A token is stored exactly when there is no truthy error and the token is truthy, and it is that token. */
  lemma StoresOnlyAcceptedToken(token: Option<string>, errorParam: Option<string>)
    ensures Stores(Decide(token, errorParam).effects) <==> !Truthy(errorParam) && Truthy(token)
    ensures forall i :: 0 <= i < |Decide(token, errorParam).effects| && Decide(token, errorParam).effects[i].StoreToken? ==>
      Decide(token, errorParam).effects[i].token == token.value
  {
    if !Truthy(errorParam) && Truthy(token) {
      assert Decide(token, errorParam).effects[0].StoreToken?;
    }
  }

  /** The callback effect run against the token store: the token is written, or the store is left alone. */
  method Run(store: Auth.TokenStore, token: Option<string>, errorParam: Option<string>) returns (d: Decision)
    modifies store
    ensures d == Decide(token, errorParam)
    ensures Stores(d.effects) ==>
      store.cookies == old(store.cookies)[Auth.AuthTokenKey := token.value]
      && store.local == old(store.local)[Auth.AuthTokenKey := token.value]
      && Auth.Authenticated(store.cookies, store.local)
    ensures !Stores(d.effects) ==> store.cookies == old(store.cookies) && store.local == old(store.local)
  {
    d := Decide(token, errorParam);
    StoresOnlyAcceptedToken(token, errorParam);
    if !Truthy(errorParam) && Truthy(token) {
      store.SetAuthToken(token.value);
    }
  }
}
