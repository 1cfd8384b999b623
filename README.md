# Campaign manager front end, modelled in Dafny

The front end of an email-campaign scheduler is a single-page web application.
Users sign in with Google. They create campaigns, add recipients with a message
and a trigger date, and page through, edit, delete or send those recipients.
They also watch their monthly email allowance and pick a pricing plan.
Every decision that matters is made by a backend reached over REST. The front end
keeps a bearer token, sends requests, and turns the replies into alerts, page
changes and local state.

The model covers that client logic:

- **Auth** (`lib/auth.ts`): the token store. A `TokenStore` class holds the
  cookie jar and local storage as two maps, so the model can tell the
  `auth_token` key apart from any other key.
- **Api** (`store/api.ts`): the endpoint table. For each endpoint it gives the
  request (method, path, query parameters, body), the cache tags the endpoint
  provides or invalidates, the polling interval and the bearer-header rule.
  `DecodeRequest` reads a request back into its call. The round-trip lemma
  proves that two calls whose ids contain no '/' never share a request, once
  the recipient query's omitted page and limit are filled in with their
  defaults.
- **RecipientsTable** (`components/RecipientsTable.tsx`): three parts.
  - A single-slot row editor: a `Table` class with `editingId` and `editForm`.
  - The actions offered for each recipient status.
  - The "Showing X to Y of Z" range, the page list and the Previous/Next rules.
- **CampaignsPage**, **AuthCallback**, **Navbar**, **PlanUsage**,
  **UpgradeModal**, **PricingPage**: the handlers and display rules of those
  pages. Each handler returns the browser effects it performs, in order, as a
  `seq<Browser.Effect>`:
  - a request through the table;
  - a direct fetch;
  - a confirmation prompt, with its text;
  - an alert;
  - a navigation, immediate or after the 3-second timer;
  - a token write;
  - closing the dialog.

  The answer to `confirm`, the server's reply, a parsed date and the current
  time are all parameters.
- Shared modules:
  - **Wrappers**: `Option`, and JavaScript's `||`, `${undefined}` and `${null}` on optional strings.
  - **JsString**: `String.prototype.trim` over the ECMAScript white-space set, and printing integers in decimal.
  - **Types**: the records of `types/campaign.ts` and `types/user.ts`.
  - **Paths**: joining segments into a path and splitting a path back into segments.
  - **Browser**: the effect datatype.

Two behaviours of the code are worth knowing, and the model keeps both:

- `handleEdit` replaces both `editingId` and the draft, so starting a second
  edit silently drops the first draft. `Table.HandleEdit` does the same.
- The edited trigger date is sent exactly as the date input holds it, with no
  conversion to UTC. That text is the part of the stored ISO string before the
  first '.', so when the stored ISO string carries fractional seconds it has
  lost its `Z`. `Table.SaveCall` sends the draft unchanged.

## Model

| member | source | states |
|---|---|---|
| Auth.ReadToken | lib/auth.ts:10-12 | the cookie value is used when it is non-empty; otherwise local storage's value is read, and it may be the empty string; absent only when the cookie is empty or missing and local storage has no entry |
| Auth.AuthenticatedIffStoredToken | lib/auth.ts:19-21 | authenticated exactly when one of the two stores holds a non-empty token under `auth_token` |
| Auth.SetTwiceIsIdempotent | lib/auth.ts:5-8 | running `setAuthToken` twice with the same token leaves both stores as one run does: the key holds the token, every other key as before |
| Auth.LaterSetWins | lib/auth.ts:5-12 | after two runs of `setAuthToken`, both stores hold the later token and `getAuthToken` returns it |
| Auth.TokenStore.constructor | lib/auth.ts:1-3 | the two stores start as given |
| Auth.TokenStore.SetAuthToken | lib/auth.ts:5-8 | both stores hold the token under `auth_token`; no other key changes; the token is read back; authenticated iff the token is non-empty |
| Auth.TokenStore.GetAuthToken | lib/auth.ts:10-12 | returns what `ReadToken` specifies for the current stores |
| Auth.TokenStore.RemoveAuthToken | lib/auth.ts:14-17 | the key is gone from both stores and nothing else changes; nothing is read back; not authenticated |
| Auth.TokenStore.IsAuthenticated | lib/auth.ts:19-21 | true exactly when the token read back is a non-empty string |
| Api.ProvidedTags | store/api.ts:26-85 | only queries provide a tag, at most one each |
| Api.InvalidatedTags | store/api.ts:32-127 | exactly the mutations invalidate tags |
| Api.SharesTagIsIntersection | store/api.ts:26 | checking the three tags one by one is the same as intersecting the tag sets |
| Api.StaleIsTagIntersection | store/api.ts:26-127 | a query goes stale after a mutation iff its provided tags meet the mutation's invalidated tags |
| Api.StaleAfterUpdateRecipient | store/api.ts:96-103 | updating a recipient makes exactly the recipient pages stale, never a campaign query or the profile |
| Api.StaleAfterRecipientChange | store/api.ts:64-127 | adding, deleting, triggering and uploading make every campaign and recipient query stale and leave the profile cached |
| Api.StaleAfterCampaignChange | store/api.ts:55-119 | creating or deleting a campaign makes exactly the two campaign queries stale |
| Api.ProfileStaleOnlyAfterLogout | store/api.ts:28-38 | the profile query goes stale after logout and after no other mutation |
| Api.StaleAfterLogout | store/api.ts:32-38 | logout makes exactly the profile query stale; the campaign list, campaign detail and recipient pages stay cached |
| Api.PollingInterval | store/api.ts:41-85 | any declared interval belongs to a query and is 5000 ms |
| Api.PolledQueries | store/api.ts:41-85 | polling is declared on the campaign list, the campaign detail and the recipient pages, and on no other endpoint (not the profile) |
| Api.RequestOf | store/api.ts:28-127 | the request each endpoint sends; it is a GET exactly for the four queries |
| Api.RecipientsPagingDefaults | store/api.ts:77-81 | an omitted page or limit is sent as page 1 and limit 10, in that order |
| Api.RecipientMutationRequests | store/api.ts:96-127 | update is a PUT of the patch to the recipient's path; trigger is a POST with no body to that path plus `/trigger`; delete is a DELETE on the same path as update |
| Api.UrlIsRoutePath | store/api.ts:28-127 | each endpoint's URL is the slash-joined path of its route segments |
| Api.RouteRoundTrip | store/api.ts:28-127 | decoding a call's method, route segments, query and body gives the call back, with paging defaults applied |
| Api.RequestRoundTrip | store/api.ts:28-127 | for ids without '/', decoding the request of a call gives the call back, with paging defaults applied |
| Api.RequestOfInjective | store/api.ts:96-127 | for calls whose ids contain no '/', two calls that send the same request are the same call once omitted page and limit take their defaults, so such a call has exactly one method, URL and body; with a '/' in an id they can collide (a recipient delete and a campaign delete of `x/recipients/y`) |
| Api.SlashInIdCollides | store/api.ts:105-119 | an id containing '/' breaks that: deleting recipient `y` of campaign `x` and deleting campaign `x/recipients/y` send the same DELETE |
| Api.PrepareHeaders | store/api.ts:18-24 | adds `Authorization: Bearer <token>` iff the token is truthy; otherwise the headers pass through unchanged; no other header changes |
| Api.BearerIffAuthenticated | store/api.ts:18-24 | requests carry the bearer header exactly when the token store reports the user authenticated |
| Types.ParseCampaignStatus | types/campaign.ts:6 | the inverse of the wire spelling of the five campaign statuses |
| JsString.Trim | app/campaigns/page.tsx:24 | `trim()` is empty exactly when the string is all white space, and a non-empty result starts and ends with a visible character |
| JsString.IntToString | components/UpgradeModal.tsx:86 | the decimal text of a number; it starts with '-' exactly for negative numbers |
| RecipientsTable.TruncateAtDot | components/RecipientsTable.tsx:34 | `split('.')[0]` is a prefix with no '.', and it stops only at a '.' |
| RecipientsTable.TruncateWithoutDot | components/RecipientsTable.tsx:34 | a date without '.' is kept whole |
| RecipientsTable.TruncateIdempotent | components/RecipientsTable.tsx:34 | truncating twice is truncating once |
| RecipientsTable.TruncateIgnoresTail | components/RecipientsTable.tsx:34 | everything from the first '.' on, e.g. milliseconds and the `Z`, is dropped |
| RecipientsTable.ExpiredStaysExpired | components/RecipientsTable.tsx:119-121 | an expired date stays expired as time passes; an unparsable date is never expired |
| RecipientsTable.ActionsFor | components/RecipientsTable.tsx:157-272 | the row in edit mode shows only Save and Cancel, with no badge; otherwise pending offers trigger-now, edit and delete, with the expired badge iff the date has passed; failed offers retry only, with the error as tooltip; sent shows the sent note; processing shows "Sending..."; scheduled shows nothing |
| RecipientsTable.ActionsIndependentOfClock | components/RecipientsTable.tsx:224-252 | the clock and the date decide only the badge, never the buttons; edit and delete appear only on pending rows |
| RecipientsTable.SaveOfferedOnAtMostOneRow | components/RecipientsTable.tsx:22-23 | with unique row ids, at most one row of a page offers Save and Cancel |
| RecipientsTable.StatusBadgesDistinct | components/RecipientsTable.tsx:93-107 | each recipient status has its own badge colour and upper-case label |
| RecipientsTable.PageNumbers | components/RecipientsTable.tsx:330 | the page list has one entry per page, and entry i is page i+1 |
| RecipientsTable.PageNumbersAscending | components/RecipientsTable.tsx:330 | the list is strictly ascending and contains exactly the pages 1 to totalPages |
| RecipientsTable.ShowsPager | components/RecipientsTable.tsx:283 | the controls appear exactly when there is paging data and its page list holds at least two pages, pages 1 and 2 among them |
| RecipientsTable.RangeStart | components/RecipientsTable.tsx:306 | the first row number is at least 1 on page 1 or later, and it opens a page: one more than a whole number of pages, namely currentPage - 1 of them |
| RecipientsTable.RangeEnd | components/RecipientsTable.tsx:310 | the end of the range is the page end clipped to the total, never above the total |
| RecipientsTable.RangeWithinPage | components/RecipientsTable.tsx:306-313 | on a page that holds a row: 1 <= start <= end <= total, and the range is at most one page long |
| RecipientsTable.PagerEnabled | components/RecipientsTable.tsx:286-299 | a page-number button is always enabled; a button is disabled exactly when it is Previous without a previous page or Next without a next page |
| RecipientsTable.OnPagerClick | components/RecipientsTable.tsx:286-353 | Previous and Next ask for the page before and after, and do nothing iff the server's flag is false; a page number asks for itself |
| RecipientsTable.PagerStaysInRange | components/RecipientsTable.tsx:283-353 | when the flags agree with the current page, every click asks for an existing page |
| RecipientsTable.AtMostOneRowEditing | components/RecipientsTable.tsx:22 | with unique row ids, at most one row of a page is in edit mode |
| RecipientsTable.Table.constructor | components/RecipientsTable.tsx:22-23 | no row is being edited and the draft is empty |
| RecipientsTable.Table.HandleEdit | components/RecipientsTable.tsx:29-36 | the row becomes the one in edit mode, replacing any other, and now shows Save and Cancel; the draft holds exactly its email, message and truncated date |
| RecipientsTable.Table.HandleCancel | components/RecipientsTable.tsx:38-41 | leaves edit mode and empties the draft, so no row offers Save; it emits no request |
| RecipientsTable.Table.EditEmail | components/RecipientsTable.tsx:163 | typing changes only the draft's email |
| RecipientsTable.Table.EditMessage | components/RecipientsTable.tsx:170 | typing changes only the draft's message |
| RecipientsTable.Table.EditTriggerDate | components/RecipientsTable.tsx:179 | typing changes only the draft's date |
| RecipientsTable.Table.SaveCall | components/RecipientsTable.tsx:45-53 | the update sends exactly the draft's three fields, unchanged, for the given campaign and recipient |
| RecipientsTable.Table.HandleSave | components/RecipientsTable.tsx:43-60 | sends the update first; on success leaves edit mode with an empty draft and no row offering Save; on failure keeps editor and draft and alerts "Failed to update recipient" |
| RecipientsTable.Table.HandleDelete | components/RecipientsTable.tsx:62-73 | asks for confirmation with the fixed prompt; nothing more unless confirmed; then one delete for the recipient, followed by an alert only on failure |
| RecipientsTable.Table.HandleTriggerNow | components/RecipientsTable.tsx:75-91 | asks for confirmation with the fixed prompt; nothing more unless confirmed; then the trigger request and exactly one alert, as `TriggerAlert` gives it |
| RecipientsTable.TriggerAlert | components/RecipientsTable.tsx:81-90 | success says so; a reply with success false names its error or "Unknown error"; a failed request names the error body's error or "Failed to trigger email" |
| RecipientsTable.TriggerSuccessAlertOnlyOnSuccess | components/RecipientsTable.tsx:81-90 | the success text appears only for a successful reply, or when a failed request's own error text happens to be that text |
| CampaignsPage.CreateRequestFor | app/campaigns/page.tsx:24-33 | no body iff the name is blank after trimming; else the name as typed, and the description only when non-empty |
| CampaignsPage.PaddedNameAccepted | app/campaigns/page.tsx:24-33 | a name with visible characters is accepted and sent with its surrounding blanks |
| CampaignsPage.DeletePrompt | app/campaigns/page.tsx:46 | the confirmation text opens with `Are you sure you want to delete "`, then the campaign name, then a closing quote |
| CampaignsPage.FailureAlert | app/campaigns/page.tsx:41-54 | a failed create or delete alerts the error body's message, or the fixed fallback when there is none |
| CampaignsPage.StatusColor | app/campaigns/page.tsx:58-67 | each of the five status names gets its own colour, and any other string gets the draft colour |
| CampaignsPage.StatusColorsDistinct | app/campaigns/page.tsx:59-65 | distinct statuses have distinct colours |
| CampaignsPage.Page.constructor | app/campaigns/page.tsx:15-19 | the form starts hidden and blank |
| CampaignsPage.Page.ToggleCreateForm | app/campaigns/page.tsx:93 | the header button flips whether the form shows and keeps its contents |
| CampaignsPage.Page.OpenCreateForm | app/campaigns/page.tsx:163 | the empty-list button shows the form |
| CampaignsPage.Page.EditName | app/campaigns/page.tsx:111 | typing changes only the name |
| CampaignsPage.Page.EditDescription | app/campaigns/page.tsx:122 | typing changes only the description |
| CampaignsPage.Page.HandleCreateCampaign | app/campaigns/page.tsx:21-43 | a blank name alerts "Campaign name is required" and sends nothing; otherwise sends exactly one create; success blanks and hides the form and opens `/campaigns/<new id>`; failure keeps the form and alerts |
| CampaignsPage.Page.HandleDeleteCampaign | app/campaigns/page.tsx:45-56 | first asks for confirmation with the prompt quoting the name; no request unless confirmed; then exactly one delete for that id, with an alert only on failure |
| AuthCallback.Decide | app/auth/callback/page.tsx:13-32 | a truthy error wins and schedules the login page; else a truthy token is stored and the dashboard opens; else "No token received" and the login page is scheduled |
| AuthCallback.ExactlyOneNavigation | app/auth/callback/page.tsx:13-32 | every run picks exactly one destination; it is the dashboard iff a token is stored, and the login page iff a message is shown |
| AuthCallback.StoresOnlyAcceptedToken | app/auth/callback/page.tsx:16-26 | a token is stored iff there is no truthy error and the token is truthy, and the stored token is the parameter |
| AuthCallback.Run | app/auth/callback/page.tsx:12-33 | the decision applied to the token store: the token is written to both stores and the user is authenticated, or the stores are untouched |
| Navbar.HandleLogout | components/Navbar.tsx:20-29 | logout request first, then the token is removed and the login page opens, whatever the request's outcome; no alert |
| PlanUsage.ProgressColor | components/PlanUsageIndicator.tsx:54-59 | unlimited gives green; otherwise red from 90%, orange from 70% to below 90%, green below 70% |
| PlanUsage.BarColorClass | components/PlanUsageIndicator.tsx:55-58 | green, orange and red map to `bg-green-500`, `bg-orange-500` and `bg-destructive`, one class per colour |
| PlanUsage.StatusVariant | components/PlanUsageIndicator.tsx:61-66 | unlimited gives success; otherwise destructive from 90%, warning from 70% to below 90%, secondary below 70% |
| PlanUsage.SeverityMonotone | components/PlanUsageIndicator.tsx:54-66 | for a limited plan, more usage never gives a less severe bar or badge |
| PlanUsage.ColorAndVariantAgree | components/PlanUsageIndicator.tsx:54-66 | the bar colour and the badge variant always show the same level |
| PlanUsage.BarWidth | components/PlanUsageIndicator.tsx:92 | the width is the usage capped at 100, so never above 100 |
| PlanUsage.ViewOf | components/PlanUsageIndicator.tsx:68-120 | a bar only for a limited plan; the "remaining" suffix iff limited and remaining > 0; the upgrade button iff limited and usage >= 100% |
| PlanUsage.UpgradeOnlyWhenFull | components/PlanUsageIndicator.tsx:106 | the upgrade button only appears beside a full red bar and a destructive badge |
| PlanUsage.BearerValue | components/PlanUsageIndicator.tsx:33 | the header is "Bearer " and the token, or "Bearer null" without one |
| PlanUsage.Indicator.constructor | components/PlanUsageIndicator.tsx:22-23 | loading, with no report |
| PlanUsage.Indicator.View | components/PlanUsageIndicator.tsx:52 | renders nothing while loading or without a report; otherwise the report's card |
| PlanUsage.Indicator.FetchUsage | components/PlanUsageIndicator.tsx:25-47 | one request with the stored token; the report is kept only for an ok reply; loading ends in every case |
| UpgradeModal.RecommendedPlan | components/UpgradeModal.tsx:44 | starter iff the current plan is "free", otherwise pro |
| UpgradeModal.Features | components/UpgradeModal.tsx:26-45 | the starter plan lists five features and the pro plan six |
| UpgradeModal.PlanLabelsDistinct | components/UpgradeModal.tsx:98-118 | each plan shows its own name and price (599 for starter, 1,299 for pro) |
| UpgradeModal.UsageTemplate | components/UpgradeModal.tsx:86 | the default sentence starts with "You've used "; the two lemmas below read both figures back out of it |
| UpgradeModal.UsageMessage | components/UpgradeModal.tsx:86 | the caller's message when non-empty, else the default sentence |
| UpgradeModal.TemplateStatesCount | components/UpgradeModal.tsx:86 | the digits after "You've used " read back as the count the sentence was built from |
| UpgradeModal.TemplateStatesLimit | components/UpgradeModal.tsx:86 | after the count and " of ", the digits read back as the plan limit the sentence was built from |
| UpgradeModal.Render | components/UpgradeModal.tsx:24-127 | nothing when closed; otherwise the recommended plan's label, features and price, and the usage block iff usage figures are given |
| UpgradeModal.MessageNeedsUsage | components/UpgradeModal.tsx:77-91 | without usage figures no message is shown, even if one is given |
| UpgradeModal.Click | components/UpgradeModal.tsx:51-146 | every button closes the dialog first; only "View Pricing Plans" then goes to `/pricing` |
| PricingPage.SubscribeTokenAsWritten | app/pricing/page.tsx:55 | as written, the token is read from local storage under "token" |
| PricingPage.AsWrittenIgnoresSignIn | app/pricing/page.tsx:55-59 | with nothing under "token", a user who signed in is authenticated but is still sent to the login page |
| PricingPage.AsWrittenCounterexample | app/pricing/page.tsx:55-59 | a fresh browser that signs in with "abc" and picks pro: login as written, the request as corrected |
| PricingPage.SubscribeToken | app/pricing/page.tsx:55 | corrected: the token is read through the shared store, and it is truthy iff the user is authenticated |
| PricingPage.CorrectedFollowsSignIn | app/pricing/page.tsx:55-59 | corrected: the login page exactly when signed out; a signed-in user choosing a paid plan sends the request with their bearer token |
| PricingPage.SubscribeStep | app/pricing/page.tsx:53-65 | no truthy token goes to login; the free plan goes to the dashboard; any other plan is requested with "Bearer <token>" |
| PricingPage.ReplyEffects | app/pricing/page.tsx:79-89 | ok alerts the message and opens the dashboard; an error reply alerts its error or the fallback; a thrown error alerts the fixed retry text |
| PricingPage.OneAlertPerReply | app/pricing/page.tsx:81-89 | exactly one alert per reply, and the dashboard only after an ok reply |
| PricingPage.Page.constructor | app/pricing/page.tsx:35 | no plan is in flight |
| PricingPage.Page.StartSubscribe | app/pricing/page.tsx:53-77 | corrected: with the token read through `getAuthToken` rather than local storage under "token", navigates away without a request, or marks the plan in flight and sends one subscribe request for it with that token |
| PricingPage.Page.FinishSubscribe | app/pricing/page.tsx:79-92 | the reply's effects, and no plan in flight afterwards, whatever the outcome |
| PricingPage.Page.ButtonDisabled | app/pricing/page.tsx:213-222 | a plan's button is disabled exactly when its caption reads "Processing...", whatever the plan's name |
| PricingPage.ButtonCaption | app/pricing/page.tsx:213-232 | "Processing..." while that plan is in flight, else "Start Free Trial" for free and "Get Started" otherwise |
| PricingPage.PlanIconFor | app/pricing/page.tsx:95-106 | one icon per known plan name, the mail icon for any other |
| PricingPage.PlanVariant | app/pricing/page.tsx:108-117 | pro is default, starter is secondary, every other plan is outline |
| PricingPage.LimitDisplayFor | app/pricing/page.tsx:190-194 | -1 shows unlimited emails; any other value shows that monthly limit |

## Left out

- JSX layout, icons, animations and CSS, apart from the class and variant choices listed above.
- Locale date and number formatting (`toLocaleString`, `toLocaleDateString`). It is library behaviour; the sent note keeps the raw `sentAt` text.
- Date parsing with `new Date`. The parsed trigger instant is a parameter (None when the date does not parse), and so is the current time.
- RTK Query internals: cache keys, de-duplication, polling timers and refetch scheduling. Staleness is modelled only as the declared tag relation. The in-flight flags that disable buttons are not modelled.
- Network I/O, the base URL from the environment, the multipart upload body (the file is an opaque string) and JSON decoding. Server replies, including a failed `response.json()`, are parameters.
- The 3-second login redirect timer is an effect (`NavigateAfterDelay`), not a clock. The cookie's 7-day expiry is left out.
- HTTP header names are compared exactly, not case-insensitively.
- JavaScript numbers are modelled as unbounded integers, and usage percentages as reals. NaN, fractional page numbers and printing a non-integer percentage are not modelled.
- `PricingPage.Page.StartSubscribe`: models the corrected handler, which reads the token through `getAuthToken`. As written, the handler reads local storage under "token" (see Findings), so a browser holding only that key would subscribe in the code and be sent to `/login` here; `SubscribeTokenAsWritten` and `AsWrittenCounterexample` keep the as-written read.
- `CampaignsPage.StatusColor`: an inherited object property such as "constructor" is treated like any unknown status and gets the draft colour. In the code, such a string yields a function rather than a class string.
- `fetchPlans` on the pricing page, and the pages that only redirect (home, login, dashboard), are not part of this model.
- The campaign detail page (`app/campaigns/[id]/page.tsx`), with its add-recipient form, its validation and its alerts, is not part of this model; only the endpoint calls it makes are, through the endpoint table.
- The `error` message state of the callback page is returned as the decision's message; the rendered card is not modelled.
- The recipients table's empty state ("No recipients added yet"), which also hides the pager, is presentational and not modelled; `ShowsPager` looks only at the paging data.
- The plan-usage card's "Upgrade Plan" button is modelled as a flag of the view; its click, a plain navigation to `/pricing`, is not modelled as an effect.
- `console.error` logging in every catch block is not modelled; no handler's behaviour depends on it.

## Findings

| source | as written | input that shows it | evidently intended | confidence | as-written member | corrected member |
|---|---|---|---|---|---|---|
| app/pricing/page.tsx:55 | the subscribe handler reads the token from local storage under "token"; `setAuthToken` (lib/auth.ts:3-8) writes "auth_token", and nothing in the application writes "token" | a fresh browser signs in through the callback with token "abc", then picks the pro plan: it is sent to `/login` although authenticated | read the token with `getAuthToken`, as every other request does | not executed | PricingPage.AsWrittenCounterexample | PricingPage.CorrectedFollowsSignIn |
