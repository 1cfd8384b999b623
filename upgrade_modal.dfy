/** The upgrade dialog shown when a plan's email limit is reached. */
module UpgradeModal {
  import opened Wrappers
  import JsString
  import opened Browser

  datatype Plan = Starter | Pro

  /** The plan to suggest: Starter for a user on the free plan, Pro for anyone else. */
  function RecommendedPlan(currentPlan: string): (p: Plan)
    ensures p == Starter <==> currentPlan == "free"
    ensures p == Pro <==> currentPlan != "free"
  {
    if currentPlan == "free" then Starter else Pro
  }

  function PlanLabel(p: Plan): string {
    match p
    case Starter => "Starter Plan"
    case Pro => "Pro Plan"
  }

  /** The monthly price shown, in rupees. */
  function PriceLabel(p: Plan): string {
    match p
    case Starter => "\U{20B9}599"
    case Pro => "\U{20B9}1,299"
  }

  /** The feature list of the suggested plan. */
  function Features(p: Plan): (f: seq<string>)
    ensures |f| == match p case Starter => 5 case Pro => 6
  {
    match p
    case Starter => ["1,000 emails per month", "Advanced campaign management", "Real-time tracking & analytics",
                     "Precision email scheduling", "Priority support"]
    case Pro => ["Unlimited emails", "Advanced campaign management", "Real-time tracking & analytics",
                 "Precision email scheduling", "Premium priority support", "Custom features on request"]
  }

  /** Each plan is shown with its own name and price. */
  lemma PlanLabelsDistinct(p1: Plan, p2: Plan)
    ensures PlanLabel(p1) == PlanLabel(p2) ==> p1 == p2
    ensures PriceLabel(p1) == PriceLabel(p2) ==> p1 == p2
  {
  }

  /** The usage figures the caller may pass. */
  datatype UsageInfo = UsageInfo(planLimit: int, currentCount: int, remaining: Option<int>)

  /** The default usage sentence, built from the two figures. */
  function UsageTemplate(info: UsageInfo): (text: string)
    ensures |text| > 12 && text[..12] == "You've used "
  {
    "You've used " + JsString.IntToString(info.currentCount) + " of " + JsString.IntToString(info.planLimit)
    + " emails in your current plan."
  }

  /** The usage sentence: the caller's message when it is a non-empty string, else the template. */
  function UsageMessage(info: UsageInfo, message: Option<string>): (text: string)
    ensures Truthy(message) ==> text == message.value
    ensures !Truthy(message) ==> text == UsageTemplate(info)
  {
    OrElse(message, UsageTemplate(info))
  }

  /** The template states the count it was built from: the digits after "You've used " read back as the count. */
  lemma {:induction false} TemplateStatesCount(info: UsageInfo)
    requires info.currentCount >= 0
    ensures var digits := JsString.NatToString(info.currentCount);
      UsageTemplate(info)[12..12 + |digits|] == digits
      && JsString.DecimalValue(digits) == info.currentCount
  {
    var digits := JsString.NatToString(info.currentCount);
    var rest := " of " + JsString.IntToString(info.planLimit) + " emails in your current plan.";
    assert UsageTemplate(info) == "You've used " + digits + rest;
    JsString.NatToStringRoundTrip(info.currentCount);
  }

  /**
   * The template states the limit it was built from: after the count's text and
   * " of ", the limit's digits read back as the plan limit.
   */
  lemma {:induction false} TemplateStatesLimit(info: UsageInfo)
    requires info.planLimit >= 0
    ensures var k := 12 + |JsString.IntToString(info.currentCount)|;
      var digits := JsString.NatToString(info.planLimit);
      UsageTemplate(info)[k..k + 4] == " of "
      && UsageTemplate(info)[k + 4..k + 4 + |digits|] == digits
      && JsString.DecimalValue(digits) == info.planLimit
  {
    var count := JsString.IntToString(info.currentCount);
    var digits := JsString.NatToString(info.planLimit);
    var tail := " emails in your current plan.";
    assert UsageTemplate(info) == "You've used " + count + " of " + digits + tail;
    JsString.NatToStringRoundTrip(info.planLimit);
  }

  /** What the open dialog shows. */
  datatype ModalView = ModalView(
    plan: Plan,
    planLabel: string,
    features: seq<string>,
    price: string,
    usageNote: Option<string>)  // the "Plan Limit Reached" block

  /** The dialog for its inputs; nothing at all when it is closed. */
  function Render(isOpen: bool, currentPlan: string, usageInfo: Option<UsageInfo>, message: Option<string>): (v: Option<ModalView>)
    ensures v.None? <==> !isOpen
    ensures v.Some? ==> v.value.plan == RecommendedPlan(currentPlan)
    ensures v.Some? ==> v.value.planLabel == PlanLabel(v.value.plan) && v.value.price == PriceLabel(v.value.plan)
    ensures v.Some? ==> v.value.features == Features(v.value.plan)
    ensures v.Some? ==> (v.value.usageNote.Some? <==> usageInfo.Some?)
    ensures v.Some? && usageInfo.Some? ==> v.value.usageNote == Some(UsageMessage(usageInfo.value, message))
  {
    if !isOpen then None
    else
      var plan := RecommendedPlan(currentPlan);
      Some(ModalView(plan, PlanLabel(plan), Features(plan), PriceLabel(plan),
        if usageInfo.Some? then Some(UsageMessage(usageInfo.value, message)) else None))
  }

  /** A message without usage figures is never shown. */
  lemma MessageNeedsUsage(isOpen: bool, currentPlan: string, message: Option<string>)
    ensures Render(isOpen, currentPlan, None, message).Some? ==> Render(isOpen, currentPlan, None, message).value.usageNote.None?
  {
  }

  datatype Button = CloseButton | MaybeLater | ViewPricing

  /** A click closes the dialog first; only "View Pricing Plans" then goes to the pricing page. */
  function Click(b: Button): (effects: seq<Effect>)
    ensures |effects| >= 1 && effects[0] == CloseModal
    ensures Navigations(effects) == if b == ViewPricing then ["/pricing"] else []
  {
    if b == ViewPricing then [CloseModal, Navigate("/pricing")] else [CloseModal]
  }
}
