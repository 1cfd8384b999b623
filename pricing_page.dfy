/**
 * The pricing page: choosing a plan, the subscribe request, and how each
 * plan card is styled.
 */
module PricingPage {
  import opened Wrappers
  import Auth
  import opened Browser

  /** The local-storage key the subscribe handler reads as written; nothing in the model writes it. */
  const LegacyTokenKey := "token"

  /** The token as the handler reads it as written: local storage under "token". */
  function SubscribeTokenAsWritten(local: map<string, string>): (r: Option<string>)
    ensures r.Some? <==> LegacyTokenKey in local
    ensures r.Some? ==> r.value == local[LegacyTokenKey]
  {
    if LegacyTokenKey in local then Some(local[LegacyTokenKey]) else None
  }

  /** The token as the rest of the front end reads it: getAuthToken, cookie first, under "auth_token". */
  function SubscribeToken(cookies: map<string, string>, local: map<string, string>): (r: Option<string>)
    ensures Truthy(r) <==> Auth.Authenticated(cookies, local)
  {
    Auth.ReadToken(cookies, local)
  }

  /** What a click on a plan's button leads to. */
  datatype Step = ToLogin | ToDashboard | Submit(authorization: string)

  /**
   * handleSubscribe up to the request: without a truthy token go to the login
   * page; the free plan goes to the dashboard; any other plan is requested.
   */
  function SubscribeStep(token: Option<string>, planName: string): (s: Step)
    ensures s == ToLogin <==> !Truthy(token)
    ensures s == ToDashboard <==> Truthy(token) && planName == "free"
    ensures s.Submit? <==> Truthy(token) && planName != "free"
    ensures s.Submit? ==> s.authorization == "Bearer " + token.value
  {
    if !Truthy(token) then ToLogin
    else if planName == "free" then ToDashboard
    else Submit("Bearer " + token.value)
  }

  /**
   * As written, signing in never reaches the subscribe request: after
   * setAuthToken the handler still finds no token under "token" and sends the
   * user to the login page, although the user is authenticated.
   */
  lemma AsWrittenIgnoresSignIn(cookies: map<string, string>, local: map<string, string>, token: string, planName: string)
    requires LegacyTokenKey !in local
    requires token != ""
    ensures Auth.Authenticated(cookies[Auth.AuthTokenKey := token], local[Auth.AuthTokenKey := token])
    ensures SubscribeStep(SubscribeTokenAsWritten(local[Auth.AuthTokenKey := token]), planName) == ToLogin
  {
    assert LegacyTokenKey != Auth.AuthTokenKey;
  }

  /** The concrete case: a fresh browser signs in with token "abc" and picks the pro plan. */
  lemma AsWrittenCounterexample()
    ensures var cookies := map[Auth.AuthTokenKey := "abc"];
      var local := map[Auth.AuthTokenKey := "abc"];
      Auth.Authenticated(cookies, local)
      && SubscribeStep(SubscribeTokenAsWritten(local), "pro") == ToLogin
      && SubscribeStep(SubscribeToken(cookies, local), "pro") == Submit("Bearer abc")
  {
    AsWrittenIgnoresSignIn(map[], map[], "abc", "pro");
    assert map[][Auth.AuthTokenKey := "abc"] == map[Auth.AuthTokenKey := "abc"];
  }

  /** Read through getAuthToken, the decision follows the user's sign-in state: login exactly when signed out. */
  lemma CorrectedFollowsSignIn(cookies: map<string, string>, local: map<string, string>, planName: string)
    ensures SubscribeStep(SubscribeToken(cookies, local), planName) == ToLogin <==> !Auth.Authenticated(cookies, local)
    ensures Auth.Authenticated(cookies, local) && planName != "free" ==>
      SubscribeStep(SubscribeToken(cookies, local), planName) == Submit("Bearer " + Auth.ReadToken(cookies, local).value)
  {
  }

  /** How the subscribe request ended: an ok reply, an error reply, or an exception (network or JSON). */
  datatype SubscribeReply = OkReply(message: Option<string>) | ErrorReply(error: Option<string>) | Thrown

  /** The alert, and for an ok reply the dashboard, after the request. */
  function ReplyEffects(reply: SubscribeReply): (effects: seq<Effect>)
    ensures |effects| >= 1 && effects[0].Alert?
    ensures reply.OkReply? ==> effects == [Alert("\U{2705} " + ShowOptional(reply.message)), Navigate("/dashboard")]
    ensures reply.ErrorReply? ==>
      effects == [Alert("\U{26A0}\U{FE0F} " + OrElse(reply.error, "Failed to submit subscription request"))]
    ensures reply.Thrown? ==> effects == [Alert("\U{274C} Failed to submit subscription request. Please try again.")]
  {
    match reply
    case OkReply(message) => [Alert("\U{2705} " + ShowOptional(message)), Navigate("/dashboard")]
    case ErrorReply(error) => [Alert("\U{26A0}\U{FE0F} " + OrElse(error, "Failed to submit subscription request"))]
    case Thrown => [Alert("\U{274C} Failed to submit subscription request. Please try again.")]
  }

  /** Exactly one alert follows every request, and only an ok reply leads to the dashboard. */
  lemma OneAlertPerReply(reply: SubscribeReply)
    ensures forall i :: 1 <= i < |ReplyEffects(reply)| ==> !ReplyEffects(reply)[i].Alert?
    ensures Navigations(ReplyEffects(reply)) == if reply.OkReply? then ["/dashboard"] else []
  {
    var e := ReplyEffects(reply);
    if reply.OkReply? {
      assert e[1..] == [Navigate("/dashboard")];
      assert e[1..][1..] == [];
    } else {
      assert e[1..] == [];
    }
  }

  /** The page's local state: the id of the plan whose request is in flight. */
  class Page {
    var subscribing: Option<string>

    constructor ()
      ensures subscribing == None
    {
      subscribing := None;
    }

    /**
     * The part of handleSubscribe before the request is awaited: navigate
     * away, or mark the plan as in flight and send the request with the
     * token read through getAuthToken.
     */
    method StartSubscribe(store: Auth.TokenStore, planId: string, planName: string) returns (effects: seq<Effect>)
      modifies this
      ensures SubscribeStep(SubscribeToken(store.cookies, store.local), planName) == ToLogin ==>
        effects == [Navigate("/login")] && subscribing == old(subscribing)
      ensures SubscribeStep(SubscribeToken(store.cookies, store.local), planName) == ToDashboard ==>
        effects == [Navigate("/dashboard")] && subscribing == old(subscribing)
      ensures SubscribeStep(SubscribeToken(store.cookies, store.local), planName).Submit? ==>
        effects == [Fetch(SubscribeRequest(planId, SubscribeStep(SubscribeToken(store.cookies, store.local), planName).authorization))]
        && subscribing == Some(planId)
    {
      var token := store.GetAuthToken();
      var step := SubscribeStep(token, planName);
      match step
      case ToLogin =>
        effects := [Navigate("/login")];
      case ToDashboard =>
        effects := [Navigate("/dashboard")];
      case Submit(authorization) =>
        subscribing := Some(planId);
        effects := [Fetch(SubscribeRequest(planId, authorization))];
    }

    /** The rest of handleSubscribe, once the request has ended: alert, and clear the in-flight plan. */
    method FinishSubscribe(reply: SubscribeReply) returns (effects: seq<Effect>)
      modifies this
      ensures effects == ReplyEffects(reply)
      ensures subscribing == None
    {
      effects := ReplyEffects(reply);
      subscribing := None;
    }

    /** The button of a plan is disabled exactly while that plan's request is in flight, which is when it reads "Processing...". */
    function ButtonDisabled(planId: string): (r: bool)
      reads this
      ensures forall planName :: r <==> ButtonCaption(planId, planName, subscribing) == "Processing..."
    {
      subscribing == Some(planId)
    }
  }

  /** The caption of a plan's button. */
  function ButtonCaption(planId: string, planName: string, subscribing: Option<string>): (c: string)
    ensures subscribing == Some(planId) ==> c == "Processing..."
    ensures subscribing != Some(planId) ==> c == (if planName == "free" then "Start Free Trial" else "Get Started")
  {
    if subscribing == Some(planId) then "Processing..."
    else if planName == "free" then "Start Free Trial"
    else "Get Started"
  }

  datatype PlanIcon = Sparkles | Zap | Crown | Mail

  /** getPlanIcon: one icon per known plan name and the mail icon for any other. */
  function PlanIconFor(planName: string): (i: PlanIcon)
    ensures i == Sparkles <==> planName == "free"
    ensures i == Zap <==> planName == "starter"
    ensures i == Crown <==> planName == "pro"
    ensures i == Mail <==> planName !in {"free", "starter", "pro"}
  {
    if planName == "free" then Sparkles
    else if planName == "starter" then Zap
    else if planName == "pro" then Crown
    else Mail
  }

  /** getPlanVariant: pro is primary, starter secondary, every other plan outlined. */
  function PlanVariant(planName: string): (v: BadgeVariant)
    ensures v == Default <==> planName == "pro"
    ensures v == Secondary <==> planName == "starter"
    ensures v == Outline <==> planName != "pro" && planName != "starter"
  {
    if planName == "pro" then Default
    else if planName == "starter" then Secondary
    else Outline
  }

  /** How a plan's email allowance is shown. */
  datatype LimitDisplay = UnlimitedEmails | EmailsPerMonth(limit: int)

  /** -1 stands for no limit; any other value is shown as the monthly allowance. */
  function LimitDisplayFor(emailLimit: int): (d: LimitDisplay)
    ensures d == UnlimitedEmails <==> emailLimit == -1
    ensures d.EmailsPerMonth? ==> d.limit == emailLimit
  {
    if emailLimit == -1 then UnlimitedEmails else EmailsPerMonth(emailLimit)
  }
}
