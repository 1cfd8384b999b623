/**
 * The REST endpoint table: for each of the twelve endpoints, the request it
 * sends, the cache tags a query provides and a mutation invalidates, and the
 * polling interval; plus the bearer-header rule applied to every request.
 */
module Api {
  import opened Wrappers
  import opened Types
  import Paths
  import Auth

  /** Cache labels; the table declares 'User', 'Campaign' and 'Recipient'. */
  datatype Tag = UserTag | CampaignTag | RecipientTag

  /** One invocation of an endpoint with its arguments. */
  datatype Call =
    | GetUserProfile
    | Logout
    | GetCampaigns
    | GetCampaignById(id: string)
    | CreateCampaign(campaign: CreateCampaignRequest)
    | UploadExcel(campaignId: string, file: string)
    | GetCampaignRecipients(campaignId: string, page: Option<int>, limit: Option<int>)
    | AddRecipient(campaignId: string, recipient: AddRecipientRequest)
    | UpdateRecipient(campaignId: string, recipientId: string, update: UpdateRecipientRequest)
    | DeleteRecipient(campaignId: string, recipientId: string)
    | DeleteCampaign(campaignId: string)
    | TriggerEmailNow(campaignId: string, recipientId: string)

  /** The four queries; the other eight endpoints are mutations. */
  predicate IsQuery(c: Call) {
    c.GetUserProfile? || c.GetCampaigns? || c.GetCampaignById? || c.GetCampaignRecipients?
  }

  /** providesTags of a query (mutations provide none). */
  function ProvidedTags(c: Call): (r: set<Tag>)
    ensures r != {} <==> IsQuery(c)
    ensures |r| <= 1
  {
    match c
    case GetUserProfile => {UserTag}
    case GetCampaigns => {CampaignTag}
    case GetCampaignById(_) => {CampaignTag}
    case GetCampaignRecipients(_, _, _) => {RecipientTag}
    case _ => {}
  }

  /** invalidatesTags of a mutation (queries invalidate none). */
  function InvalidatedTags(c: Call): (r: set<Tag>)
    ensures r != {} <==> !IsQuery(c)
  {
    match c
    case Logout => {UserTag}
    case CreateCampaign(_) => {CampaignTag}
    case UploadExcel(_, _) => {CampaignTag, RecipientTag}
    case AddRecipient(_, _) => {RecipientTag, CampaignTag}
    case UpdateRecipient(_, _, _) => {RecipientTag}
    case DeleteRecipient(_, _) => {RecipientTag, CampaignTag}
    case DeleteCampaign(_) => {CampaignTag}
    case TriggerEmailNow(_, _) => {RecipientTag, CampaignTag}
    case _ => {}
  }

  /** The two tag sets have a tag in common, checked tag by tag. */
  predicate SharesTag(a: set<Tag>, b: set<Tag>) {
    || (UserTag in a && UserTag in b)
    || (CampaignTag in a && CampaignTag in b)
    || (RecipientTag in a && RecipientTag in b)
  }

  /** Checking tag by tag is the same as intersecting the sets. */
  lemma SharesTagIsIntersection(a: set<Tag>, b: set<Tag>)
    ensures SharesTag(a, b) <==> a * b != {}
  {
    if a * b != {} {
      var t :| t in a * b;
      assert t == UserTag || t == CampaignTag || t == RecipientTag;
    }
    if SharesTag(a, b) {
      if UserTag in a && UserTag in b {
        assert UserTag in a * b;
      } else if CampaignTag in a && CampaignTag in b {
        assert CampaignTag in a * b;
      } else {
        assert RecipientTag in a * b;
      }
    }
  }

  /**
   * A cached result of query `q` must be refetched after mutation `m` succeeds:
   * the tags `q` provides meet the tags `m` invalidates.
   */
  predicate Stale(q: Call, m: Call) {
    IsQuery(q) && !IsQuery(m) && SharesTag(ProvidedTags(q), InvalidatedTags(m))
  }

  /** Staleness is tag-set intersection. */
  lemma StaleIsTagIntersection(q: Call, m: Call)
    ensures Stale(q, m) <==> IsQuery(q) && !IsQuery(m) && ProvidedTags(q) * InvalidatedTags(m) != {}
  {
    SharesTagIsIntersection(ProvidedTags(q), InvalidatedTags(m));
  }

  /** The declared polling interval, in milliseconds. */
  function PollingInterval(c: Call): (r: Option<nat>)
    ensures r.Some? ==> IsQuery(c) && r.value == 5000
  {
    match c
    case GetCampaigns => Some(5000)
    case GetCampaignById(_) => Some(5000)
    case GetCampaignRecipients(_, _, _) => Some(5000)
    case _ => None
  }

  /** Updating a recipient makes exactly the recipient pages stale; campaigns and the profile stay cached. */
  lemma StaleAfterUpdateRecipient(q: Call, campaignId: string, recipientId: string, update: UpdateRecipientRequest)
    ensures Stale(q, UpdateRecipient(campaignId, recipientId, update)) <==> q.GetCampaignRecipients?
  {
  }

  /** Adding, deleting, triggering or uploading recipients makes every campaign and recipient query stale. */
  lemma StaleAfterRecipientChange(q: Call, m: Call)
    requires m.AddRecipient? || m.DeleteRecipient? || m.TriggerEmailNow? || m.UploadExcel?
    ensures Stale(q, m) <==> q.GetCampaigns? || q.GetCampaignById? || q.GetCampaignRecipients?
  {
  }

  /** Creating or deleting a campaign makes exactly the campaign queries stale. */
  lemma StaleAfterCampaignChange(q: Call, m: Call)
    requires m.CreateCampaign? || m.DeleteCampaign?
    ensures Stale(q, m) <==> q.GetCampaigns? || q.GetCampaignById?
  {
  }

  /** The profile query goes stale after logout and after nothing else. */
  lemma ProfileStaleOnlyAfterLogout(m: Call)
    ensures Stale(GetUserProfile, m) <==> m.Logout?
    ensures Stale(GetUserProfile, Logout)
  {
  }

  /** Logging out makes exactly the profile query stale; the campaign and recipient queries stay cached. */
  lemma StaleAfterLogout(q: Call)
    ensures Stale(q, Logout) <==> q.GetUserProfile?
  {
  }

  /** Polling is declared on the campaign list, the campaign detail and the recipient pages only. */
  lemma PolledQueries(c: Call)
    ensures PollingInterval(c).Some? <==> c.GetCampaigns? || c.GetCampaignById? || c.GetCampaignRecipients?
  {
  }

  datatype HttpMethod = GET | POST | PUT | DELETE

  /** A request body: JSON of one of the request shapes, or the multipart upload of one file. */
  datatype Body =
    | NoBody
    | CampaignBody(campaign: CreateCampaignRequest)
    | RecipientBody(recipient: AddRecipientRequest)
    | PatchBody(update: UpdateRecipientRequest)
    | FileForm(file: string)

  /** A request relative to the configured base URL; `params` become the query string. */
  datatype Request = Request(verb: HttpMethod, url: string, params: seq<(string, int)>, body: Body)

  const DefaultPage := 1
  const DefaultLimit := 10

  /** The `query` callback of each endpoint. */
  function RequestOf(c: Call): (r: Request)
    ensures IsQuery(c) <==> r.verb == GET
  {
    match c
    case GetUserProfile => Request(GET, "/api/user/profile", [], NoBody)
    case Logout => Request(POST, "/api/auth/logout", [], NoBody)
    case GetCampaigns => Request(GET, "/api/campaigns", [], NoBody)
    case GetCampaignById(id) => Request(GET, "/api/campaigns/" + id, [], NoBody)
    case CreateCampaign(data) => Request(POST, "/api/campaigns", [], CampaignBody(data))
    case UploadExcel(campaignId, file) =>
      Request(POST, "/api/campaigns/" + campaignId + "/upload", [], FileForm(file))
    case GetCampaignRecipients(campaignId, page, limit) =>
      Request(GET, "/api/campaigns/" + campaignId + "/recipients",
              [("page", page.GetOr(DefaultPage)), ("limit", limit.GetOr(DefaultLimit))], NoBody)
    case AddRecipient(campaignId, data) =>
      Request(POST, "/api/campaigns/" + campaignId + "/recipients", [], RecipientBody(data))
    case UpdateRecipient(campaignId, recipientId, data) =>
      Request(PUT, "/api/campaigns/" + campaignId + "/recipients/" + recipientId, [], PatchBody(data))
    case DeleteRecipient(campaignId, recipientId) =>
      Request(DELETE, "/api/campaigns/" + campaignId + "/recipients/" + recipientId, [], NoBody)
    case DeleteCampaign(campaignId) => Request(DELETE, "/api/campaigns/" + campaignId, [], NoBody)
    case TriggerEmailNow(campaignId, recipientId) =>
      Request(POST, "/api/campaigns/" + campaignId + "/recipients/" + recipientId + "/trigger", [], NoBody)
  }

  /** An omitted page or limit is sent as page 1 and limit 10. */
  lemma RecipientsPagingDefaults(campaignId: string, page: Option<int>, limit: Option<int>)
    ensures RequestOf(GetCampaignRecipients(campaignId, None, None)).params == [("page", 1), ("limit", 10)]
    ensures RequestOf(GetCampaignRecipients(campaignId, page, limit)).params
            == [("page", if page.Some? then page.value else 1), ("limit", if limit.Some? then limit.value else 10)]
  {
  }

  /** The two recipient mutations named in the table: update is a PUT and trigger a POST on the recipient's path. */
  lemma RecipientMutationRequests(campaignId: string, recipientId: string, update: UpdateRecipientRequest)
    ensures RequestOf(UpdateRecipient(campaignId, recipientId, update))
            == Request(PUT, "/api/campaigns/" + campaignId + "/recipients/" + recipientId, [], PatchBody(update))
    ensures RequestOf(TriggerEmailNow(campaignId, recipientId))
            == Request(POST, "/api/campaigns/" + campaignId + "/recipients/" + recipientId + "/trigger", [], NoBody)
    ensures RequestOf(DeleteRecipient(campaignId, recipientId)).url == RequestOf(UpdateRecipient(campaignId, recipientId, update)).url
    ensures RequestOf(DeleteRecipient(campaignId, recipientId)).verb == DELETE
  {
  }

  /** The call with the recipient query's defaults filled in, which is all a request can reveal. */
  function WithDefaults(c: Call): Call {
    match c
    case GetCampaignRecipients(campaignId, page, limit) =>
      GetCampaignRecipients(campaignId, Some(page.GetOr(DefaultPage)), Some(limit.GetOr(DefaultLimit)))
    case _ => c
  }

  /** Every identifier in the call can stand as one path segment (ids never contain '/'). */
  predicate WellFormed(c: Call) {
    match c
    case GetCampaignById(id) => Paths.IsSegment(id)
    case UploadExcel(campaignId, _) => Paths.IsSegment(campaignId)
    case GetCampaignRecipients(campaignId, _, _) => Paths.IsSegment(campaignId)
    case AddRecipient(campaignId, _) => Paths.IsSegment(campaignId)
    case UpdateRecipient(campaignId, recipientId, _) => Paths.IsSegment(campaignId) && Paths.IsSegment(recipientId)
    case DeleteRecipient(campaignId, recipientId) => Paths.IsSegment(campaignId) && Paths.IsSegment(recipientId)
    case DeleteCampaign(campaignId) => Paths.IsSegment(campaignId)
    case TriggerEmailNow(campaignId, recipientId) => Paths.IsSegment(campaignId) && Paths.IsSegment(recipientId)
    case _ => true
  }

  /** The path segments of each endpoint's URL. */
  function RouteSegments(c: Call): seq<string> {
    match c
    case GetUserProfile => ["api", "user", "profile"]
    case Logout => ["api", "auth", "logout"]
    case GetCampaigns => ["api", "campaigns"]
    case GetCampaignById(id) => ["api", "campaigns", id]
    case CreateCampaign(_) => ["api", "campaigns"]
    case UploadExcel(campaignId, _) => ["api", "campaigns", campaignId, "upload"]
    case GetCampaignRecipients(campaignId, _, _) => ["api", "campaigns", campaignId, "recipients"]
    case AddRecipient(campaignId, _) => ["api", "campaigns", campaignId, "recipients"]
    case UpdateRecipient(campaignId, recipientId, _) => ["api", "campaigns", campaignId, "recipients", recipientId]
    case DeleteRecipient(campaignId, recipientId) => ["api", "campaigns", campaignId, "recipients", recipientId]
    case DeleteCampaign(campaignId) => ["api", "campaigns", campaignId]
    case TriggerEmailNow(campaignId, recipientId) => ["api", "campaigns", campaignId, "recipients", recipientId, "trigger"]
  }

  /** True when the segments are "api", "campaigns", an id, then exactly `tail`. */
  predicate CampaignRoute(s: seq<string>, tail: seq<string>) {
    |s| == 3 + |tail| && s[0] == "api" && s[1] == "campaigns" && s[3..] == tail
  }

  /** Which call a request is, read off its method, path, query string and body: the inverse of RequestOf. */
  function DecodeRequest(r: Request): Option<Call> {
    DecodeRoute(r.verb, Paths.Segments(r.url), r.params, r.body)
  }

  /** Which call a method, a list of path segments, a query string and a body denote. */
  function DecodeRoute(verb: HttpMethod, s: seq<string>, params: seq<(string, int)>, body: Body): Option<Call> {
    match verb
    case GET =>
      if body != NoBody then None
      else if s == ["api", "user", "profile"] && params == [] then Some(GetUserProfile)
      else if s == ["api", "campaigns"] && params == [] then Some(GetCampaigns)
      else if CampaignRoute(s, []) && params == [] then Some(GetCampaignById(s[2]))
      else if CampaignRoute(s, ["recipients"]) && |params| == 2
              && params[0].0 == "page" && params[1].0 == "limit"
      then Some(GetCampaignRecipients(s[2], Some(params[0].1), Some(params[1].1)))
      else None
    case POST =>
      if params != [] then None
      else (
        match body
        case NoBody =>
          if s == ["api", "auth", "logout"] then Some(Logout)
          else if |s| == 6 && CampaignRoute(s[..4], ["recipients"]) && s[5] == "trigger"
          then Some(TriggerEmailNow(s[2], s[4]))
          else None
        case CampaignBody(data) => if s == ["api", "campaigns"] then Some(CreateCampaign(data)) else None
        case FileForm(file) => if CampaignRoute(s, ["upload"]) then Some(UploadExcel(s[2], file)) else None
        case RecipientBody(data) =>
          if CampaignRoute(s, ["recipients"]) then Some(AddRecipient(s[2], data)) else None
        case PatchBody(_) => None)
    case PUT =>
      if params == [] && body.PatchBody? && |s| == 5 && CampaignRoute(s[..4], ["recipients"])
      then Some(UpdateRecipient(s[2], s[4], body.update))
      else None
    case DELETE =>
      if params != [] || body != NoBody then None
      else if CampaignRoute(s, []) then Some(DeleteCampaign(s[2]))
      else if |s| == 5 && CampaignRoute(s[..4], ["recipients"]) then Some(DeleteRecipient(s[2], s[4]))
      else None
  }

  /** The URL templates of the table, as paths, each built from a shorter one. */
  lemma ProfileUrl()
    ensures Paths.Path(["api", "user", "profile"]) == "/api/user/profile"
  {
    Paths.PathSnoc(["api"], "user");
    assert ["api"] + ["user"] == ["api", "user"];
    Paths.PathSnoc(["api", "user"], "profile");
    assert ["api", "user"] + ["profile"] == ["api", "user", "profile"];
  }

  lemma LogoutUrl()
    ensures Paths.Path(["api", "auth", "logout"]) == "/api/auth/logout"
  {
    Paths.PathSnoc(["api"], "auth");
    assert ["api"] + ["auth"] == ["api", "auth"];
    Paths.PathSnoc(["api", "auth"], "logout");
    assert ["api", "auth"] + ["logout"] == ["api", "auth", "logout"];
  }

  lemma CampaignsUrl()
    ensures Paths.Path(["api", "campaigns"]) == "/api/campaigns"
  {
    Paths.PathSnoc(["api"], "campaigns");
    assert ["api"] + ["campaigns"] == ["api", "campaigns"];
  }

  lemma CampaignUrl(id: string)
    ensures Paths.Path(["api", "campaigns", id]) == "/api/campaigns/" + id
  {
    CampaignsUrl();
    Paths.PathSnoc(["api", "campaigns"], id);
    assert ["api", "campaigns"] + [id] == ["api", "campaigns", id];
  }

  lemma UploadUrl(id: string)
    ensures Paths.Path(["api", "campaigns", id, "upload"]) == "/api/campaigns/" + id + "/upload"
  {
    CampaignUrl(id);
    Paths.PathSnoc(["api", "campaigns", id], "upload");
    assert ["api", "campaigns", id] + ["upload"] == ["api", "campaigns", id, "upload"];
  }

  lemma RecipientsUrl(id: string)
    ensures Paths.Path(["api", "campaigns", id, "recipients"]) == "/api/campaigns/" + id + "/recipients"
  {
    CampaignUrl(id);
    Paths.PathSnoc(["api", "campaigns", id], "recipients");
    assert ["api", "campaigns", id] + ["recipients"] == ["api", "campaigns", id, "recipients"];
  }

  lemma RecipientUrl(id: string, rid: string)
    ensures Paths.Path(["api", "campaigns", id, "recipients", rid]) == "/api/campaigns/" + id + "/recipients/" + rid
  {
    RecipientsUrl(id);
    Paths.PathSnoc(["api", "campaigns", id, "recipients"], rid);
    assert ["api", "campaigns", id, "recipients"] + [rid] == ["api", "campaigns", id, "recipients", rid];
  }

  lemma TriggerUrl(id: string, rid: string)
    ensures Paths.Path(["api", "campaigns", id, "recipients", rid, "trigger"])
            == "/api/campaigns/" + id + "/recipients/" + rid + "/trigger"
  {
    RecipientUrl(id, rid);
    Paths.PathSnoc(["api", "campaigns", id, "recipients", rid], "trigger");
    assert ["api", "campaigns", id, "recipients", rid] + ["trigger"] == ["api", "campaigns", id, "recipients", rid, "trigger"];
  }

  /** Each endpoint's URL is the path of its route segments. */
  lemma UrlIsRoutePath(c: Call)
    ensures RequestOf(c).url == Paths.Path(RouteSegments(c))
  {
    match c
    case GetUserProfile => ProfileUrl();
    case Logout => LogoutUrl();
    case GetCampaigns => CampaignsUrl();
    case CreateCampaign(_) => CampaignsUrl();
    case GetCampaignById(id) => CampaignUrl(id);
    case DeleteCampaign(id) => CampaignUrl(id);
    case UploadExcel(id, _) => UploadUrl(id);
    case GetCampaignRecipients(id, _, _) => RecipientsUrl(id);
    case AddRecipient(id, _) => RecipientsUrl(id);
    case UpdateRecipient(id, rid, _) => RecipientUrl(id, rid);
    case DeleteRecipient(id, rid) => RecipientUrl(id, rid);
    case TriggerEmailNow(id, rid) => TriggerUrl(id, rid);
  }

  /** Decoding the request of a well-formed call gives the call back, with the paging defaults applied. */
  lemma RequestRoundTrip(c: Call)
    requires WellFormed(c)
    ensures DecodeRequest(RequestOf(c)) == Some(WithDefaults(c))
  {
    UrlIsRoutePath(c);
    RouteSegmentsAreSegments(c);
    Paths.SegmentsOfPath(RouteSegments(c));
    RouteRoundTrip(c);
  }

  /** The fixed words of the routes contain no '/', and neither do the ids of a well-formed call. */
  lemma RouteSegmentsAreSegments(c: Call)
    requires WellFormed(c)
    ensures forall i :: 0 <= i < |RouteSegments(c)| ==> Paths.IsSegment(RouteSegments(c)[i])
  {
    assert Paths.IsSegment("api") && Paths.IsSegment("user") && Paths.IsSegment("profile");
    assert Paths.IsSegment("auth") && Paths.IsSegment("logout") && Paths.IsSegment("campaigns");
    assert Paths.IsSegment("upload") && Paths.IsSegment("recipients") && Paths.IsSegment("trigger");
  }

  /** Decoding a call's method, route segments, query string and body gives the call back. */
  lemma RouteRoundTrip(c: Call)
    ensures var r := RequestOf(c); DecodeRoute(r.verb, RouteSegments(c), r.params, r.body) == Some(WithDefaults(c))
  {
  }

  /** Distinct well-formed calls (up to paging defaults) never share a request: method, URL and body identify the call. */
  lemma RequestOfInjective(c1: Call, c2: Call)
    requires WellFormed(c1) && WellFormed(c2)
    requires RequestOf(c1) == RequestOf(c2)
    ensures WithDefaults(c1) == WithDefaults(c2)
  {
    RequestRoundTrip(c1);
    RequestRoundTrip(c2);
  }

  /** Without well-formedness the request does not identify the call: an id holding '/' can impersonate a longer route. */
  lemma SlashInIdCollides()
    ensures DeleteRecipient("x", "y") != DeleteCampaign("x/recipients/y")
    ensures RequestOf(DeleteRecipient("x", "y")) == RequestOf(DeleteCampaign("x/recipients/y"))
    ensures !WellFormed(DeleteCampaign("x/recipients/y"))
  {
    assert "/api/campaigns/" + "x" + "/recipients/" + "y" == "/api/campaigns/" + "x/recipients/y";
    assert "x/recipients/y"[1] == '/';
  }

  const AuthorizationHeader := "Authorization"

  /** prepareHeaders: add `Authorization: Bearer <token>` when the token is truthy; otherwise pass the headers through. */
  function PrepareHeaders(headers: map<string, string>, token: Option<string>): (r: map<string, string>)
    ensures Truthy(token) ==> AuthorizationHeader in r && r[AuthorizationHeader] == "Bearer " + token.value
    ensures !Truthy(token) ==> r == headers
    ensures r.Keys == headers.Keys + (if Truthy(token) then {AuthorizationHeader} else {})
    ensures forall k :: k in headers && k != AuthorizationHeader ==> r[k] == headers[k]
  {
    if Truthy(token) then headers[AuthorizationHeader := "Bearer " + token.value] else headers
  }

  /** Requests carry a bearer header exactly when the token store reports the user authenticated. */
  lemma BearerIffAuthenticated(headers: map<string, string>, cookies: map<string, string>, local: map<string, string>)
    requires AuthorizationHeader !in headers
    ensures AuthorizationHeader in PrepareHeaders(headers, Auth.ReadToken(cookies, local))
            <==> Auth.Authenticated(cookies, local)
  {
  }

  /** What the `error.data` of a rejected request carries. */
  datatype ErrorData = ErrorData(error: Option<string>, message: Option<string>)

  /** How an awaited `.unwrap()` ends: with the response value, or by throwing. */
  datatype Outcome<T> = Resolved(value: T) | Rejected(data: ErrorData)

  /** The body of a trigger-now response; `success: false` is an ordinary response, not a throw. */
  datatype TriggerResult = TriggerResult(success: bool, message: string, error: Option<string>)
}
