/** Plan caps and the mapping of Stripe events onto subscriptions. */
module Billing {
  import opened Models

  const FREE := "free"
  const DEFAULT_CAP: Option<int> := Some(3)

  /* ----- the catalogue ----- */

  function FirstPlan(plans: seq<Plan>, wanted: Plan -> bool): (found: Option<Plan>)
    ensures found.Some? ==> found.value in plans && wanted(found.value)
    ensures found.None? ==> forall p :: p in plans ==> !wanted(p)
  {
    if plans == [] then None
    else if wanted(plans[0]) then Some(plans[0])
    else FirstPlan(plans[1..], wanted)
  }

  function PlanByCode(plans: seq<Plan>, code: string): Option<Plan> {
    FirstPlan(plans, (p: Plan) => p.code == code)
  }

  function ActivePlanByCode(plans: seq<Plan>, code: Option<string>): Option<Plan> {
    if code.None? then None
    else FirstPlan(plans, (p: Plan) => p.code == code.value && p.active)
  }

  function PlanForPrice(plans: seq<Plan>, price: string): Option<Plan> {
    if price == "" then None
    else FirstPlan(plans, (p: Plan) => p.priceId == price && p.active)
  }

  function Codes(plans: seq<Plan>): set<string> {
    set p | p in plans :: p.code
  }

  /** Plan codes are unique, as the catalogue's constraint says. */
  ghost predicate UniqueCodes(plans: seq<Plan>) {
    forall p, q :: p in plans && q in plans && p.code == q.code ==> p == q
  }

  predicate FreeSeeded(plans: seq<Plan>) {
    FREE in Codes(plans)
  }

  /* ----- caps ----- */

  function SubKeys(subs: Table<Subscription>, org: nat): set<nat> {
    set pk | pk in subs && subs[pk].org == org
  }

  /** The plan of an organization, or None when it has no subscription. */
  function PlanOf(plans: seq<Plan>, subs: Table<Subscription>, org: nat): Option<Plan> {
    match First(SubKeys(subs, org))
    case None => None
    case Some(pk) => PlanByCode(plans, subs[pk].row.plan)
  }

  function ProjectCap(plans: seq<Plan>, subs: Table<Subscription>, org: nat): Option<int> {
    match PlanOf(plans, subs, org)
    case None => DEFAULT_CAP
    case Some(plan) => plan.maxProjects
  }

  function MemberCap(plans: seq<Plan>, subs: Table<Subscription>, org: nat): Option<int> {
    match PlanOf(plans, subs, org)
    case None => DEFAULT_CAP
    case Some(plan) => plan.maxMembers
  }

  /** `count` has reached the cap, so nothing more may be created. */
  predicate Full(count: int, cap: Option<int>) {
    cap.Some? && count >= cap.value
  }

  /* ----- Stripe events ----- */

  datatype Kind = CheckoutCompleted | SubscriptionUpdated | SubscriptionDeleted | PaymentFailed | Unhandled

  /** The organization id in an event's metadata: absent, a number, or text that is no id. */
  datatype OrgRef = Absent | Named(org: nat) | Malformed

  /** A verified event. `objectId`, `customer`, `subscription` and `price` are blank when the
      payload does not carry them. */
  datatype Event = Event(id: string, kind: Kind, org: OrgRef, objectId: string, customer: string,
                         subscription: string, planCode: Option<string>, status: string,
                         periodEnd: Option<int>, price: string)

  /** The subscription id the handler of an event looks up, blank when it uses none. */
  function LookupId(e: Event): string {
    match e.kind
    case CheckoutCompleted => ""
    case SubscriptionUpdated => e.objectId
    case SubscriptionDeleted => e.objectId
    case PaymentFailed => e.subscription
    case Unhandled => ""
  }

  function IdKeys(subs: Table<Subscription>, id: string): set<nat> {
    set pk | pk in subs && subs[pk].row.subscriptionId == id
  }

  function CustomerKeys(subs: Table<Subscription>, customer: string): set<nat> {
    set pk | pk in subs && subs[pk].row.customerId == customer
  }

  function FindByOrg(subs: Table<Subscription>, ref: OrgRef): Option<nat> {
    if ref.Named? then First(SubKeys(subs, ref.org)) else None
  }

  function FindById(subs: Table<Subscription>, id: string): Option<nat> {
    if id == "" then None else First(IdKeys(subs, id))
  }

  function FindByCustomer(subs: Table<Subscription>, customer: string): Option<nat> {
    if customer == "" then None else First(CustomerKeys(subs, customer))
  }

  /** The one subscription an event is about: by organization, then by subscription id,
      then by customer id. */
  function Find(subs: Table<Subscription>, e: Event): Option<nat> {
    var byOrg := FindByOrg(subs, e.org);
    if byOrg.Some? then byOrg
    else
      var byId := FindById(subs, LookupId(e));
      if byId.Some? then byId else FindByCustomer(subs, e.customer)
  }

  function Or(value: string, fallback: string): string {
    if value == "" then fallback else value
  }

  function MapStatus(status: string, current: SubscriptionStatus): SubscriptionStatus {
    if status == "active" || status == "trialing" then Active
    else if status == "past_due" || status == "unpaid" then PastDue
    else if status == "canceled" || status == "incomplete_expired" then Canceled
    else if status == "incomplete" then Incomplete
    else current
  }

  /** A period end of zero counts as absent, like None. */
  function PeriodEnd(e: Event, current: Option<int>): Option<int> {
    if e.periodEnd.None? || e.periodEnd.value == 0 then current else e.periodEnd
  }

  function PlanCode(plan: Option<Plan>, current: string): string {
    if plan.Some? then plan.value.code else current
  }

  /** The row an event leaves where it found `sub`. */
  function Updated(plans: seq<Plan>, sub: Subscription, e: Event): Subscription {
    match e.kind
    case CheckoutCompleted =>
      Subscription(PlanCode(ActivePlanByCode(plans, e.planCode), sub.plan), Or(e.customer, sub.customerId),
                   Or(e.subscription, sub.subscriptionId), Active, sub.periodEnd)
    case SubscriptionUpdated =>
      Subscription(PlanCode(PlanForPrice(plans, e.price), sub.plan), sub.customerId,
                   Or(e.objectId, sub.subscriptionId), MapStatus(e.status, sub.status),
                   PeriodEnd(e, sub.periodEnd))
    case SubscriptionDeleted =>
      Subscription(PlanCode(PlanByCode(plans, FREE), sub.plan), sub.customerId, "", Canceled, sub.periodEnd)
    case PaymentFailed =>
      sub.(status := PastDue)
    case Unhandled =>
      sub
  }

  /** The handler raises: the metadata names an organization by something that is no id. */
  predicate Raises(e: Event) {
    e.kind != Unhandled && e.org.Malformed?
  }

  /** A handler that raises changes nothing. */
  function HandleEvent(plans: seq<Plan>, subs: Table<Subscription>, e: Event): Table<Subscription> {
    match (if e.kind.Unhandled? || Raises(e) then None else Find(subs, e))
    case None => subs
    case Some(pk) => subs[pk := Scoped(subs[pk].org, Updated(plans, subs[pk].row, e))]
  }
}
