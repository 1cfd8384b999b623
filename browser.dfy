/**
 * What a handler does to the outside world, in order: requests through the
 * endpoint table, direct fetches, confirmation prompts, alerts, navigation and
 * token-store writes.
 * Browser prompts and server replies are inputs of the handlers instead.
 */
module Browser {
  import Api

  /** A request sent with `fetch` outside the endpoint table. */
  datatype FetchRequest =
    | PlanUsageRequest(authorization: string)                 // GET /api/user/plan-usage
    | SubscribeRequest(planId: string, authorization: string) // POST /api/pricing/subscribe, body {planId}

  datatype Effect =
    | Send(call: Api.Call)
    | Fetch(request: FetchRequest)
    | Confirm(prompt: string)            // window.confirm; its answer is an input of the handler
    | Alert(text: string)
    | Navigate(path: string)
    | NavigateAfterDelay(path: string)   // router.push inside a 3-second timer
    | StoreToken(token: string)
    | ClearToken
    | CloseModal

  /** The endpoint calls in a trace, in order. */
  function Requests(trace: seq<Effect>): (r: seq<Api.Call>)
    ensures |r| <= |trace|
    ensures forall i :: 0 <= i < |trace| && trace[i].Send? ==> trace[i].call in r
    ensures forall c :: c in r ==> Send(c) in trace
  {
    if trace == [] then []
    else (if trace[0].Send? then [trace[0].call] else []) + Requests(trace[1..])
  }

  /** The navigation targets in a trace, immediate or delayed, in order. */
  function Navigations(trace: seq<Effect>): (r: seq<string>)
    ensures |r| <= |trace|
    ensures forall i :: 0 <= i < |trace| && trace[i].Navigate? ==> trace[i].path in r
    ensures forall i :: 0 <= i < |trace| && trace[i].NavigateAfterDelay? ==> trace[i].path in r
    ensures forall p :: p in r ==> Navigate(p) in trace || NavigateAfterDelay(p) in trace
  {
    if trace == [] then []
    else (if trace[0].Navigate? || trace[0].NavigateAfterDelay? then [trace[0].path] else [])
         + Navigations(trace[1..])
  }

  /** The calls of two traces run one after the other. */
  lemma {:induction false} RequestsOfConcat(a: seq<Effect>, b: seq<Effect>)
    ensures Requests(a + b) == Requests(a) + Requests(b)
    decreases |a|
  {
    if a == [] {
      assert a + b == b;
    } else {
      var head := if a[0].Send? then [a[0].call] else [];
      assert (a + b)[0] == a[0] && (a + b)[1..] == a[1..] + b;
      assert Requests(a + b) == head + Requests(a[1..] + b);
      RequestsOfConcat(a[1..], b);
      assert Requests(a) == head + Requests(a[1..]);
    }
  }

  /** The navigations of two traces run one after the other. */
  lemma {:induction false} NavigationsOfConcat(a: seq<Effect>, b: seq<Effect>)
    ensures Navigations(a + b) == Navigations(a) + Navigations(b)
    decreases |a|
  {
    if a == [] {
      assert a + b == b;
    } else {
      var head := if a[0].Navigate? || a[0].NavigateAfterDelay? then [a[0].path] else [];
      assert (a + b)[0] == a[0] && (a + b)[1..] == a[1..] + b;
      assert Navigations(a + b) == head + Navigations(a[1..] + b);
      NavigationsOfConcat(a[1..], b);
      assert Navigations(a) == head + Navigations(a[1..]);
    }
  }

  /** Variants of the badge and button components. */
  datatype BadgeVariant = Default | Secondary | Destructive | Outline | Success | Warning
}
