/** The plan-usage card: how much of the monthly email allowance is used, and when to offer an upgrade. */
module PlanUsage {
  import opened Wrappers
  import Auth
  import opened Browser

  /** The usage report the backend returns for the current user. */
  datatype Usage = Usage(
    planDisplayName: string,
    emailLimit: int,
    isUnlimited: bool,
    used: int,
    remaining: int,
    percentageUsed: real)

  /** The colour of the progress bar. */
  datatype BarColor = Green | Orange | Red

  /** The class string getProgressColor returns for each colour. */
  function BarColorClass(c: BarColor): (r: string)
    ensures r == "bg-green-500" <==> c == Green
    ensures r == "bg-orange-500" <==> c == Orange
    ensures r == "bg-destructive" <==> c == Red
  {
    match c
    case Green => "bg-green-500"
    case Orange => "bg-orange-500"
    case Red => "bg-destructive"
  }

  /** getProgressColor: green when unlimited, else red from 90%, orange from 70%, green below. */
  function ProgressColor(u: Usage): (c: BarColor)
    ensures u.isUnlimited ==> c == Green
    ensures !u.isUnlimited ==> (c == Red <==> u.percentageUsed >= 90.0)
    ensures !u.isUnlimited ==> (c == Orange <==> 70.0 <= u.percentageUsed < 90.0)
    ensures !u.isUnlimited ==> (c == Green <==> u.percentageUsed < 70.0)
  {
    if u.isUnlimited then Green
    else if u.percentageUsed >= 90.0 then Red
    else if u.percentageUsed >= 70.0 then Orange
    else Green
  }

  /** getStatusVariant: success when unlimited, else destructive from 90%, warning from 70%, secondary below. */
  function StatusVariant(u: Usage): (v: BadgeVariant)
    ensures u.isUnlimited ==> v == Success
    ensures !u.isUnlimited ==> (v == Destructive <==> u.percentageUsed >= 90.0)
    ensures !u.isUnlimited ==> (v == Warning <==> 70.0 <= u.percentageUsed < 90.0)
    ensures !u.isUnlimited ==> (v == Secondary <==> u.percentageUsed < 70.0)
  {
    if u.isUnlimited then Success
    else if u.percentageUsed >= 90.0 then Destructive
    else if u.percentageUsed >= 70.0 then Warning
    else Secondary
  }

  /** How alarming a bar colour is. */
  function BarSeverity(c: BarColor): nat {
    match c
    case Green => 0
    case Orange => 1
    case Red => 2
  }

  /** How alarming a badge variant is; variants the card never uses for a limited plan rank lowest. */
  function VariantSeverity(v: BadgeVariant): nat {
    match v
    case Warning => 1
    case Destructive => 2
    case _ => 0
  }

  /** For a limited plan, using more never makes the bar or the badge look less severe. */
  lemma SeverityMonotone(u1: Usage, u2: Usage)
    requires !u1.isUnlimited && !u2.isUnlimited
    requires u1.percentageUsed <= u2.percentageUsed
    ensures BarSeverity(ProgressColor(u1)) <= BarSeverity(ProgressColor(u2))
    ensures VariantSeverity(StatusVariant(u1)) <= VariantSeverity(StatusVariant(u2))
  {
  }

  /** The bar and the badge always agree on the level. */
  lemma ColorAndVariantAgree(u: Usage)
    ensures BarSeverity(ProgressColor(u)) == VariantSeverity(StatusVariant(u))
  {
  }

  /** The bar's width in percent: the usage, capped at 100. */
  function BarWidth(u: Usage): (w: real)
    ensures w <= 100.0
    ensures w == u.percentageUsed || w == 100.0
    ensures u.percentageUsed <= 100.0 ==> w == u.percentageUsed
  {
    if u.percentageUsed < 100.0 then u.percentageUsed else 100.0
  }

  /** The progress bar of a limited plan. */
  datatype Bar = Bar(color: BarColor, width: real)

  /** What the card shows for one report. */
  datatype UsageView = UsageView(
    planName: string,
    variant: BadgeVariant,
    bar: Option<Bar>,           // absent for an unlimited plan, which says "No monthly limits"
    remaining: Option<int>,     // the " • n remaining" suffix
    upgradeButton: bool)        // the "Upgrade Plan" button, which goes to the pricing page

  /** The card for a report. */
  function ViewOf(u: Usage): (v: UsageView)
    ensures v.planName == u.planDisplayName && v.variant == StatusVariant(u)
    ensures v.bar.None? <==> u.isUnlimited
    ensures v.bar.Some? ==> v.bar.value.color == ProgressColor(u) && v.bar.value.width == BarWidth(u)
    ensures v.remaining.Some? <==> !u.isUnlimited && u.remaining > 0
    ensures v.remaining.Some? ==> v.remaining.value == u.remaining
    ensures v.upgradeButton <==> !u.isUnlimited && u.percentageUsed >= 100.0
  {
    UsageView(
      u.planDisplayName,
      StatusVariant(u),
      if u.isUnlimited then None else Some(Bar(ProgressColor(u), BarWidth(u))),
      if !u.isUnlimited && u.remaining > 0 then Some(u.remaining) else None,
      !u.isUnlimited && u.percentageUsed >= 100.0)
  }

  /** The upgrade button only appears beside a full, red bar and a destructive badge. */
  lemma UpgradeOnlyWhenFull(u: Usage)
    ensures ViewOf(u).upgradeButton ==>
      ViewOf(u).bar == Some(Bar(Red, 100.0)) && ViewOf(u).variant == Destructive
  {
  }

  /** How the usage request ended. */
  datatype UsageReply = OkReply(data: Usage) | NotOkReply | Thrown

  /** The Authorization value the card sends: the token as JavaScript prints it, so an absent one is "null". */
  function BearerValue(token: Option<string>): (r: string)
    ensures token.Some? ==> r == "Bearer " + token.value
    ensures token.None? ==> r == "Bearer null"
  {
    "Bearer " + ShowNullable(token)
  }

  /** The card's local state. */
  class Indicator {
    var usage: Option<Usage>
    var loading: bool

    constructor ()
      ensures usage == None && loading
    {
      usage := None;
      loading := true;
    }

    /** What the card renders: nothing while loading or without a report. */
    function View(): (v: Option<UsageView>)
      reads this
      ensures v.None? <==> loading || usage.None?
      ensures v.Some? ==> v.value == ViewOf(usage.value)
    {
      if loading || usage.None? then None else Some(ViewOf(usage.value))
    }

    /**
     * fetchUsage: request the report with the stored token; keep the report
     * only when the reply is ok, and stop loading in every case.
     */
    method FetchUsage(store: Auth.TokenStore, reply: UsageReply) returns (effects: seq<Effect>)
      modifies this
      ensures effects == [Fetch(PlanUsageRequest(BearerValue(Auth.ReadToken(store.cookies, store.local))))]
      ensures !loading
      ensures reply.OkReply? ==> usage == Some(reply.data)
      ensures !reply.OkReply? ==> usage == old(usage)
      ensures View().Some? <==> usage.Some?
    {
      var token := store.GetAuthToken();
      effects := [Fetch(PlanUsageRequest(BearerValue(token)))];
      if reply.OkReply? {
        usage := Some(reply.data);
      }
      loading := false;
    }
  }
}
